/**
 * The canary scanner of the conformance suite: exact matches first, then a marker scan that jumps
 * over every match. It misses nothing because the marker does not overlap itself and no canary ends
 * in the beginning of one.
 */
module Canaries {
  const MARKER := "CANARY-WOP-CONFORMANCE-NEVER-SECRET"

  datatype Canary = Canary(name: string, value: string)

  function BuildCanary(prefix: string, body: string): string { prefix + MARKER + "-" + body }

  const CANARIES: seq<Canary> := [
    Canary("openai", BuildCanary("sk-", "oai9Lt7Nw2QrZ0aB8mYjPpQe")),
    Canary("anthropic", BuildCanary("sk-" + "ant-", "ant3Ko0LqFqzv9Sb1J7mNcR")),
    Canary("google", "AIza" + MARKER + "Goog12345abcdef9876"),
    Canary("jwt-bearer", "eyJhbGciOiJIUzI1NiJ9." + "eyJjYW5hcnkiOnRydWV9." + MARKER + "-jwt-signature-xyz"),
    Canary("byok-credential-ref", BuildCanary("cred_", "OpaqueRefAlphaNumX9Y8Z7"))
  ]

  datatype Leak = Leak(name: string, value: string, position: nat)

  // ---- substring search -------------------------------------------------------------------------------------

  predicate OccursAt(text: string, pattern: string, p: nat) {
    p + |pattern| <= |text| && text[p..p + |pattern|] == pattern
  }

  /** `text.indexOf(pattern, from)`. */
  function IndexFrom(text: string, pattern: string, from: nat): (r: int)
    ensures r == -1 || r >= from
    ensures r >= 0 ==> OccursAt(text, pattern, r) && forall p :: from <= p < r ==> !OccursAt(text, pattern, p)
    ensures r == -1 ==> forall p :: from <= p ==> !OccursAt(text, pattern, p)
    decreases if from <= |text| then |text| - from + 1 else 0
  {
    if from > |text| then -1
    else if OccursAt(text, pattern, from) then from
    else IndexFrom(text, pattern, from + 1)
  }

  lemma CharAt(text: string, pattern: string, p: nat, j: nat)
    requires OccursAt(text, pattern, p) && j < |pattern|
    ensures text[p + j] == pattern[j]
  {
    assert text[p..p + |pattern|][j] == pattern[j];
  }

  // ---- what the scan relies on --------------------------------------------------------------------------------

  /** `T` ends the marker and occurs nowhere else in it. */
  lemma MarkerEndsOnce(j: nat)
    requires j < |MARKER| - 1
    ensures MARKER[j] != 'T' && MARKER[|MARKER| - 1] == 'T'
  {
    assert MARKER[..|MARKER| - 1] == "CANARY-WOP-CONFORMANCE-NEVER-SECRE";
    assert 'T' !in "CANARY-WOP-CONFORMANCE-NEVER-SECRE";
    assert MARKER[j] == MARKER[..|MARKER| - 1][j];
  }

  /** The marker has no border: two occurrences never overlap. */
  lemma MarkersDoNotOverlap(text: string, p: nat, q: nat)
    requires OccursAt(text, MARKER, p) && OccursAt(text, MARKER, q) && p < q
    ensures p + |MARKER| <= q
  {
    if q < p + |MARKER| {
      var j := p + |MARKER| - 1 - q;
      CharAt(text, MARKER, p, |MARKER| - 1);
      CharAt(text, MARKER, q, j);
      MarkerEndsOnce(j);
    }
  }

  /** A last character that rules out ending in a proper beginning of the marker. */
  predicate SafeEnd(v: string) {
    |v| >= 2 && (v[|v| - 1] !in MARKER || (v[|v| - 1] == 'R' && v[|v| - 2] == 'c'))
  }

  lemma NoLowerCBeforeR(s: nat)
    requires 0 < s < |MARKER| && MARKER[s] == 'R'
    ensures MARKER[s - 1] != 'c'
  {
    hide MARKER;
    NotInMarker('c');
  }

  lemma MarkerStartsWithC()
    ensures MARKER[0] == 'C' && |MARKER| == 35
  {
  }

  /** An occurrence of the marker that starts inside an occurrence of `v` lies inside it. */
  lemma StartsInsideLiesInside(text: string, v: string, q: nat, p: nat)
    requires OccursAt(text, v, q) && OccursAt(text, MARKER, p) && q <= p < q + |v|
    requires SafeEnd(v)
    ensures p + |MARKER| <= q + |v|
  {
    hide MARKER;
    if p + |MARKER| > q + |v| {
      var s := q + |v| - p;
      CharAt(text, v, q, |v| - 1);
      CharAt(text, MARKER, p, s - 1);
      assert v[|v| - 1] in MARKER;
      MarkerStartsWithC();
      assert s >= 2;
      CharAt(text, v, q, |v| - 2);
      CharAt(text, MARKER, p, s - 2);
      NoLowerCBeforeR(s - 1);
    }
  }

  lemma MarkerAlphabet(i: nat)
    requires i < |MARKER|
    ensures MARKER[i] == '-' || 'A' <= MARKER[i] <= 'Z'
  {
  }

  lemma NotInMarker(c: char)
    requires c != '-' && !('A' <= c <= 'Z')
    ensures c !in MARKER
  {
    hide MARKER;
    if c in MARKER {
      var i :| 0 <= i < |MARKER| && MARKER[i] == c;
      MarkerAlphabet(i);
    }
  }

  lemma SafeBy(v: string, last: char, before: char)
    requires |v| >= 2 && v[|v| - 1] == last && v[|v| - 2] == before
    requires last !in MARKER || (last == 'R' && before == 'c')
    ensures SafeEnd(v)
  {
  }

  lemma SafeTails()
    ensures SafeEnd("oai9Lt7Nw2QrZ0aB8mYjPpQe") && SafeEnd("ant3Ko0LqFqzv9Sb1J7mNcR")
    ensures SafeEnd("Goog12345abcdef9876") && SafeEnd("-jwt-signature-xyz") && SafeEnd("OpaqueRefAlphaNumX9Y8Z7")
  {
    hide MARKER, SafeEnd;
    NotInMarker('e');
    NotInMarker('6');
    NotInMarker('z');
    NotInMarker('7');
    SafeBy("oai9Lt7Nw2QrZ0aB8mYjPpQe", 'e', 'Q');
    SafeBy("ant3Ko0LqFqzv9Sb1J7mNcR", 'R', 'c');
    SafeBy("Goog12345abcdef9876", '6', '7');
    SafeBy("-jwt-signature-xyz", 'z', 'y');
    SafeBy("OpaqueRefAlphaNumX9Y8Z7", '7', 'Z');
  }

  lemma EndOf(head: string, tail: string)
    requires SafeEnd(tail)
    ensures SafeEnd(head + tail)
  {
    hide MARKER;
  }

  lemma CanaryEnds(i: nat)
    requires i < |CANARIES|
    ensures SafeEnd(CANARIES[i].value)
  {
    SafeTails();
    hide SafeEnd, MARKER;
    if i == 0 {
      EndOf("sk-" + MARKER + "-", "oai9Lt7Nw2QrZ0aB8mYjPpQe");
    } else if i == 1 {
      EndOf("sk-" + "ant-" + MARKER + "-", "ant3Ko0LqFqzv9Sb1J7mNcR");
    } else if i == 2 {
      EndOf("AIza" + MARKER, "Goog12345abcdef9876");
    } else if i == 3 {
      EndOf("eyJhbGciOiJIUzI1NiJ9." + "eyJjYW5hcnkiOnRydWV9." + MARKER, "-jwt-signature-xyz");
    } else {
      EndOf("cred_" + MARKER + "-", "OpaqueRefAlphaNumX9Y8Z7");
    }
  }

  /** Every canary carries the marker. */
  lemma CanaryHasMarker(i: nat) returns (at: nat)
    requires i < |CANARIES|
    ensures OccursAt(CANARIES[i].value, MARKER, at)
  {
    hide MARKER, OccursAt, BuildCanary;
    if i == 0 {
      at := BuiltHasMarker("sk-", "oai9Lt7Nw2QrZ0aB8mYjPpQe");
    } else if i == 1 {
      at := BuiltHasMarker("sk-" + "ant-", "ant3Ko0LqFqzv9Sb1J7mNcR");
    } else if i == 2 {
      at := MarkerAfter("AIza", "Goog12345abcdef9876");
    } else if i == 3 {
      at := MarkerAfter("eyJhbGciOiJIUzI1NiJ9." + "eyJjYW5hcnkiOnRydWV9.", "-jwt-signature-xyz");
    } else {
      at := BuiltHasMarker("cred_", "OpaqueRefAlphaNumX9Y8Z7");
    }
  }

  lemma MarkerAfter(head: string, tail: string) returns (at: nat)
    ensures OccursAt(head + MARKER + tail, MARKER, at)
  {
    hide MARKER;
    at := |head|;
    assert (head + MARKER + tail)[at..at + |MARKER|] == MARKER;
  }

  lemma BuiltHasMarker(prefix: string, body: string) returns (at: nat)
    ensures OccursAt(BuildCanary(prefix, body), MARKER, at)
  {
    hide MARKER;
    at := |prefix|;
    assert (prefix + MARKER + "-" + body)[at..at + |MARKER|] == MARKER;
  }

  // ---- the reference: every position, one by one ----------------------------------------------------------------

  /** First occurrence of each of the canaries from number `i` on. */
  function CanaryLeaks(text: string, i: nat): seq<Leak>
    requires i <= |CANARIES|
    decreases |CANARIES| - i
  {
    if i == |CANARIES| then []
    else
      var c := CANARIES[i];
      var p := IndexFrom(text, c.value, 0);
      (if p == -1 then [] else [Leak(c.name, c.value, p)]) + CanaryLeaks(text, i + 1)
  }

  /** The position lies in the range of one of the leaks. */
  predicate Within(leaks: seq<Leak>, p: nat) {
    exists l :: l in leaks && l.position <= p < l.position + |l.value|
  }

  /** All marker occurrences from `p` on that start outside the known leaks, in order. */
  function MarkerLeaks(text: string, p: nat, known: seq<Leak>): seq<Leak>
    decreases |text| - p
  {
    if p >= |text| then []
    else (if OccursAt(text, MARKER, p) && !Within(known, p) then [Leak("marker-only", MARKER, p)] else [])
         + MarkerLeaks(text, p + 1, known)
  }

  function AllLeaks(text: string): seq<Leak> {
    CanaryLeaks(text, 0) + MarkerLeaks(text, 0, CanaryLeaks(text, 0))
  }

  /** A stretch without the marker contributes nothing. */
  lemma {:induction false} SkipTo(text: string, p: nat, q: nat, known: seq<Leak>)
    requires p <= q && forall x :: p <= x < q ==> !OccursAt(text, MARKER, x)
    ensures MarkerLeaks(text, p, known) == MarkerLeaks(text, q, known)
    decreases q - p
  {
    if p < q && p < |text| {
      SkipTo(text, p + 1, q, known);
    }
  }

  /** The jump past a match skips no other match. */
  lemma JumpOver(text: string, p: nat, known: seq<Leak>)
    requires OccursAt(text, MARKER, p)
    ensures MarkerLeaks(text, p, known)
         == (if Within(known, p) then [] else [Leak("marker-only", MARKER, p)])
            + MarkerLeaks(text, p + |MARKER|, known)
  {
    forall x | p + 1 <= x < p + |MARKER| ensures !OccursAt(text, MARKER, x) {
      if OccursAt(text, MARKER, x) {
        MarkersDoNotOverlap(text, p, x);
      }
    }
    SkipTo(text, p + 1, p + |MARKER|, known);
  }

  /** Earlier marker-only reports end before `p`, so they make no difference to the range check. */
  lemma EarlierReportsDoNotCover(known: seq<Leak>, reported: seq<Leak>, p: nat)
    requires forall l :: l in reported ==> l.position + |l.value| <= p
    ensures Within(known + reported, p) <==> Within(known, p)
  {
  }

  lemma NextCanary(text: string, i: nat)
    requires i < |CANARIES|
    ensures var p := IndexFrom(text, CANARIES[i].value, 0);
            CanaryLeaks(text, i)
            == (if p == -1 then [] else [Leak(CANARIES[i].name, CANARIES[i].value, p)]) + CanaryLeaks(text, i + 1)
  {
    hide CANARIES;
  }

  lemma NoCanaryLeft(text: string)
    ensures CanaryLeaks(text, |CANARIES|) == []
  {
    hide CANARIES;
  }

  lemma NothingAfterEnd(text: string, p: nat, known: seq<Leak>)
    requires p >= |text|
    ensures MarkerLeaks(text, p, known) == []
  {
  }

  /** `findCanaryLeaks`: the two passes as they are written. */
  method FindCanaryLeaks(text: string) returns (leaks: seq<Leak>)
    ensures leaks == AllLeaks(text)
  {
    MarkerStartsWithC();
    hide CANARIES, MARKER, CanaryLeaks, MarkerLeaks, Within, OccursAt;
    leaks := [];
    for i := 0 to |CANARIES|
      invariant leaks + CanaryLeaks(text, i) == CanaryLeaks(text, 0)
    {
      NextCanary(text, i);
      var c := CANARIES[i];
      var pos := IndexFrom(text, c.value, 0);
      if pos != -1 {
        leaks := leaks + [Leak(c.name, c.value, pos)];
      }
    }
    NoCanaryLeft(text);
    ghost var known := leaks;
    ghost var reported: seq<Leak> := [];
    var scanFrom := 0;
    while scanFrom < |text|
      invariant leaks == known + reported
      invariant forall l :: l in reported ==> l.position + |l.value| <= scanFrom
      invariant reported + MarkerLeaks(text, scanFrom, known) == MarkerLeaks(text, 0, known)
      decreases |text| - scanFrom
    {
      NothingAfterEnd(text, |text|, known);
      var pos := IndexFrom(text, MARKER, scanFrom);
      if pos == -1 {
        SkipTo(text, scanFrom, |text|, known);
        break;
      }
      SkipTo(text, scanFrom, pos, known);
      JumpOver(text, pos, known);
      EarlierReportsDoNotCover(known, reported, pos);
      if !Within(leaks, pos) {
        leaks := leaks + [Leak("marker-only", MARKER, pos)];
        reported := reported + [Leak("marker-only", MARKER, pos)];
      }
      scanFrom := pos + |MARKER|;
    }
    if scanFrom >= |text| {
      NothingAfterEnd(text, scanFrom, known);
    }
  }

  // ---- what the reports mean ------------------------------------------------------------------------------------

  lemma {:induction false} CanaryLeaksAreReal(text: string, i: nat, l: Leak)
    requires i <= |CANARIES| && l in CanaryLeaks(text, i)
    ensures NamesCanary(l) && OccursAt(text, l.value, l.position)
    decreases |CANARIES| - i
  {
    var c := CANARIES[i];
    hide CANARIES;
    var p := IndexFrom(text, c.value, 0);
    if p != -1 && l == Leak(c.name, c.value, p) {
    } else {
      CanaryLeaksAreReal(text, i + 1, l);
    }
  }

  lemma {:induction false} MarkerLeaksAreReal(text: string, p: nat, known: seq<Leak>, l: Leak)
    ensures l in MarkerLeaks(text, p, known) <==>
              l == Leak("marker-only", MARKER, l.position) && p <= l.position < |text|
              && OccursAt(text, MARKER, l.position) && !Within(known, l.position)
    decreases |text| - p
  {
    if p < |text| {
      hide OccursAt, Within;
      MarkerLeaksAreReal(text, p + 1, known, l);
    }
  }

  lemma SliceOfSlice(text: string, q: nat, m: nat, at: nat, n: nat)
    requires q + m <= |text| && at + n <= m
    ensures text[q..q + m][at..at + n] == text[q + at..q + at + n]
  {
    var a, b := text[q..q + m][at..at + n], text[q + at..q + at + n];
    assert |a| == |b| && forall i :: 0 <= i < n ==> a[i] == b[i];
  }

  lemma OccursWithin(text: string, v: string, q: nat, at: nat)
    requires OccursAt(text, v, q) && OccursAt(v, MARKER, at)
    ensures OccursAt(text, MARKER, q + at)
  {
    hide MARKER;
    SliceOfSlice(text, q, |v|, at, |MARKER|);
  }

  /** The report names one of the canaries. */
  predicate NamesCanary(l: Leak) {
    exists k :: 0 <= k < |CANARIES| && l.name == CANARIES[k].name && l.value == CANARIES[k].value
  }

  /** The marker occurs inside the reported range. */
  ghost predicate HoldsMarker(text: string, l: Leak) {
    exists p :: l.position <= p && p + |MARKER| <= l.position + |l.value| && OccursAt(text, MARKER, p)
  }

  lemma CanaryHoldsMarker(text: string, l: Leak)
    requires NamesCanary(l) && OccursAt(text, l.value, l.position)
    ensures HoldsMarker(text, l)
  {
    var k :| 0 <= k < |CANARIES| && l.name == CANARIES[k].name && l.value == CANARIES[k].value;
    var at := CanaryHasMarker(k);
    hide CANARIES, MARKER, OccursAt;
    OccursWithin(text, l.value, l.position, at);
    OccurrenceFits(l.value, at);
    assert OccursAt(text, MARKER, l.position + at);
  }

  /** Every report is a true occurrence of a canary or of the marker, and holds the marker. */
  lemma ReportsAreReal(text: string, l: Leak)
    requires l in AllLeaks(text)
    ensures OccursAt(text, l.value, l.position)
    ensures l == Leak("marker-only", MARKER, l.position) || NamesCanary(l)
    ensures HoldsMarker(text, l)
  {
    hide CANARIES, MARKER, OccursAt, Within, NamesCanary, CanaryLeaks, MarkerLeaks;
    if l in CanaryLeaks(text, 0) {
      CanaryLeaksAreReal(text, 0, l);
      CanaryHoldsMarker(text, l);
    } else {
      MarkerLeaksAreReal(text, 0, CanaryLeaks(text, 0), l);
    }
  }

  lemma OccurrenceFits(text: string, p: nat)
    requires OccursAt(text, MARKER, p)
    ensures p + |MARKER| <= |text|
  {
  }

  /** Coverage: every occurrence of the marker lies, as a whole, inside some report. */
  lemma MarkersAreCovered(text: string, p: nat)
    requires OccursAt(text, MARKER, p)
    ensures exists l :: l in AllLeaks(text) && l.position <= p && p + |MARKER| <= l.position + |l.value|
  {
    var known := CanaryLeaks(text, 0);
    if Within(known, p) {
      var l :| l in known && l.position <= p < l.position + |l.value|;
      CanaryLeaksAreReal(text, 0, l);
      var k :| 0 <= k < |CANARIES| && l.name == CANARIES[k].name && l.value == CANARIES[k].value;
      CanaryEnds(k);
      hide CANARIES, MARKER;
      StartsInsideLiesInside(text, l.value, l.position, p);
      assert l in AllLeaks(text);
    } else {
      var l := Leak("marker-only", MARKER, p);
      MarkerStartsWithC();
      MarkerLeaksAreReal(text, 0, known, l);
      assert l in AllLeaks(text);
    }
  }

  /** The detector reports something exactly if the text contains the marker. */
  lemma ReportsIffMarked(text: string)
    ensures AllLeaks(text) != [] <==> exists p :: OccursAt(text, MARKER, p)
  {
    if AllLeaks(text) != [] {
      ReportsAreReal(text, AllLeaks(text)[0]);
    }
    if p :| OccursAt(text, MARKER, p) {
      MarkersAreCovered(text, p);
    }
  }
}
