/** Merging reference lists through a JavaScript `Map` keyed by a string: first position, last value. */
module ReferenceMerge {
  import opened Prelude

  /** `map.set(key, ref)` on the value list of an insertion-ordered map. */
  function Put<T>(keyOf: T -> string, entries: seq<T>, ref: T): seq<T> {
    if entries == [] then [ref]
    else if keyOf(entries[0]) == keyOf(ref) then [ref] + entries[1..]
    else [entries[0]] + Put(keyOf, entries[1..], ref)
  }

  function Merged<T>(keyOf: T -> string, refs: seq<T>): seq<T> {
    if refs == [] then [] else Put(keyOf, Merged(keyOf, refs[..|refs| - 1]), refs[|refs| - 1])
  }

  method MergeRefs<T>(keyOf: T -> string, current: seq<T>, incoming: seq<T>) returns (merged: seq<T>)
    ensures merged == Merged(keyOf, current + incoming)
  {
    var all := current + incoming;
    merged := [];
    for i := 0 to |all|
      invariant merged == Merged(keyOf, all[..i])
    {
      merged := Put(keyOf, merged, all[i]);
      assert all[..i + 1][..i] == all[..i];
    }
    assert all[..|all|] == all;
  }

  ghost predicate DistinctKeys<T>(keyOf: T -> string, s: seq<T>) {
    forall i, j | 0 <= i < j < |s| :: keyOf(s[i]) != keyOf(s[j])
  }

  lemma {:induction false} PutMember<T>(keyOf: T -> string, entries: seq<T>, ref: T, x: T)
    requires DistinctKeys(keyOf, entries)
    ensures x in Put(keyOf, entries, ref) <==> x == ref || (x in entries && keyOf(x) != keyOf(ref))
  {
    if entries != [] {
      assert entries == [entries[0]] + entries[1..];
      if keyOf(entries[0]) == keyOf(ref) {
        if x in entries[1..] {
          var k :| 0 <= k < |entries[1..]| && entries[1..][k] == x;
          assert x == entries[k + 1] && keyOf(entries[0]) != keyOf(entries[k + 1]);
        }
      } else {
        PutMember(keyOf, entries[1..], ref, x);
      }
    }
  }

  lemma {:induction false} PutKeepsDistinct<T>(keyOf: T -> string, entries: seq<T>, ref: T)
    requires DistinctKeys(keyOf, entries)
    ensures DistinctKeys(keyOf, Put(keyOf, entries, ref))
  {
    if entries != [] && keyOf(entries[0]) != keyOf(ref) {
      PutKeepsDistinct(keyOf, entries[1..], ref);
      var rest := Put(keyOf, entries[1..], ref);
      forall j | 0 <= j < |rest| ensures keyOf(rest[j]) != keyOf(entries[0]) {
        PutMember(keyOf, entries[1..], ref, rest[j]);
        if rest[j] in entries[1..] {
          var k :| 0 <= k < |entries[1..]| && entries[1..][k] == rest[j];
          assert entries[k + 1] == rest[j] && keyOf(entries[0]) != keyOf(entries[k + 1]);
        }
      }
    }
  }

  /** `refs[i]` is the last reference carrying its key. */
  ghost predicate LastOfKey<T>(keyOf: T -> string, refs: seq<T>, i: nat) {
    i < |refs| && forall j | i < j < |refs| :: keyOf(refs[j]) != keyOf(refs[i])
  }

  lemma {:induction false} MergedDistinct<T>(keyOf: T -> string, refs: seq<T>)
    ensures DistinctKeys(keyOf, Merged(keyOf, refs))
  {
    if refs != [] {
      MergedDistinct(keyOf, refs[..|refs| - 1]);
      PutKeepsDistinct(keyOf, Merged(keyOf, refs[..|refs| - 1]), refs[|refs| - 1]);
    }
  }

  lemma {:induction false} MergedMember<T>(keyOf: T -> string, refs: seq<T>, x: T)
    ensures x in Merged(keyOf, refs) <==> exists i: nat :: LastOfKey(keyOf, refs, i) && refs[i] == x
  {
    if refs != [] {
      var n := |refs| - 1;
      MergedDistinct(keyOf, refs[..n]);
      MergedMember(keyOf, refs[..n], x);
      PutMember(keyOf, Merged(keyOf, refs[..n]), refs[n], x);
      if x in Merged(keyOf, refs) {
        if x == refs[n] {
          assert LastOfKey(keyOf, refs, n);
        } else {
          var i: nat :| LastOfKey(keyOf, refs[..n], i) && refs[..n][i] == x;
          assert LastOfKey(keyOf, refs, i);
        }
      }
      forall i: nat | LastOfKey(keyOf, refs, i) && refs[i] == x ensures x in Merged(keyOf, refs) {
        if i < n {
          assert LastOfKey(keyOf, refs[..n], i) && refs[..n][i] == x;
        }
      }
    }
  }

  /** Every reference has a last one with its key. */
  lemma {:induction false} LastExists<T>(keyOf: T -> string, refs: seq<T>, i: nat) returns (last: nat)
    requires i < |refs|
    ensures LastOfKey(keyOf, refs, last) && keyOf(refs[last]) == keyOf(refs[i])
    decreases |refs| - i
  {
    last := i;
    if !LastOfKey(keyOf, refs, i) {
      var j :| i < j < |refs| && keyOf(refs[j]) == keyOf(refs[i]);
      last := LastExists(keyOf, refs, j);
    }
  }

  ghost predicate KeysSeparate<T>(keyOf: T -> string, refs: seq<T>) {
    forall a, b | a in refs && b in refs && keyOf(a) == keyOf(b) :: a == b
  }

  /**
   The merged list never repeats an element, and it holds exactly the elements of both lists if and
   only if no two different references share a key.
   */
  lemma MergeIsUnionExactly<T>(keyOf: T -> string, current: seq<T>, incoming: seq<T>)
    ensures var merged := Merged(keyOf, current + incoming);
      && (forall i, j | 0 <= i < j < |merged| :: merged[i] != merged[j])
      && ((forall x :: x in merged <==> x in current || x in incoming) <==> KeysSeparate(keyOf, current + incoming))
  {
    var refs := current + incoming;
    var merged := Merged(keyOf, refs);
    MergedDistinct(keyOf, refs);
    forall x ensures x in merged ==> x in refs {
      MergedMember(keyOf, refs, x);
    }
    if KeysSeparate(keyOf, refs) {
      forall x | x in refs ensures x in merged {
        MergedMember(keyOf, refs, x);
        var i :| 0 <= i < |refs| && refs[i] == x;
        var last := LastExists(keyOf, refs, i);
        assert refs[last] in refs;
      }
    }
    if forall x :: x in merged <==> x in refs {
      forall a, b | a in refs && b in refs && keyOf(a) == keyOf(b) ensures a == b {
        assert a in merged && b in merged;
        var i, j :| 0 <= i < |merged| && 0 <= j < |merged| && merged[i] == a && merged[j] == b;
      }
    }
    assert forall x :: x in refs <==> x in current || x in incoming;
  }

  // ---------------------------------------------------------------- the two key functions

  datatype EvidenceRef = EvidenceRef(sourceType: string, sourceRef: string)

  datatype SourceRef = SourceRef(sourceType: string, sourceId: string, archiveRef: Option<string>,
                                 checksum: Option<string>)

  const NUL := 0 as char

  function OrEmpty(o: Option<string>): string { if o.Some? then o.value else "" }

  function EvidenceKey(r: EvidenceRef): string { r.sourceType + [NUL] + r.sourceRef }

  function SourceKey(r: SourceRef): string {
    r.sourceType + ([NUL] + (r.sourceId + ([NUL] + (OrEmpty(r.archiveRef) + ([NUL] + OrEmpty(r.checksum))))))
  }

  /** The position of the first NUL, or the length. */
  function FirstNul(s: string): nat {
    if s == "" || s[0] == NUL then 0 else 1 + FirstNul(s[1..])
  }

  lemma {:induction false} FirstNulAfterHead(a: string, x: string)
    requires NUL !in a
    ensures FirstNul(a + [NUL] + x) == |a|
  {
    if a != "" {
      assert (a + [NUL] + x)[1..] == a[1..] + [NUL] + x;
      assert forall c | c in a[1..] :: c in a;
      FirstNulAfterHead(a[1..], x);
    }
  }

  /** A NUL-free head is read back from the joined text. */
  lemma JoinSeparates(a: string, x: string, b: string, y: string)
    requires NUL !in a && NUL !in b && a + [NUL] + x == b + [NUL] + y
    ensures a == b && x == y
  {
    var s := a + [NUL] + x;
    FirstNulAfterHead(a, x);
    FirstNulAfterHead(b, y);
    assert a == s[..|a|] == b && x == s[|a| + 1..] == y;
  }

  predicate PlainEvidence(r: EvidenceRef) { NUL !in r.sourceType }

  /** An omitted field and an empty one share a key, so one spelling must be used throughout. */
  predicate PlainSource(r: SourceRef) {
    && NUL !in r.sourceType && NUL !in r.sourceId && NUL !in OrEmpty(r.archiveRef)
    && r.archiveRef != Some("") && r.checksum != Some("")
  }

  lemma PlainEvidenceSeparates(refs: seq<EvidenceRef>)
    requires forall r | r in refs :: PlainEvidence(r)
    ensures KeysSeparate(EvidenceKey, refs)
  {
    forall a, b | a in refs && b in refs && EvidenceKey(a) == EvidenceKey(b) ensures a == b {
      JoinSeparates(a.sourceType, a.sourceRef, b.sourceType, b.sourceRef);
    }
  }

  lemma PlainSourceSeparates(refs: seq<SourceRef>)
    requires forall r | r in refs :: PlainSource(r)
    ensures KeysSeparate(SourceKey, refs)
  {
    forall a, b | a in refs && b in refs && SourceKey(a) == SourceKey(b) ensures a == b {
      var a3, b3 :=
        OrEmpty(a.archiveRef) + ([NUL] + OrEmpty(a.checksum)), OrEmpty(b.archiveRef) + ([NUL] + OrEmpty(b.checksum));
      var a2, b2 := a.sourceId + ([NUL] + a3), b.sourceId + ([NUL] + b3);
      assert a.sourceType + ([NUL] + a2) == a.sourceType + [NUL] + a2;
      assert b.sourceType + ([NUL] + b2) == b.sourceType + [NUL] + b2;
      JoinSeparates(a.sourceType, a2, b.sourceType, b2);
      assert a2 == a.sourceId + [NUL] + a3 && b2 == b.sourceId + [NUL] + b3;
      JoinSeparates(a.sourceId, a3, b.sourceId, b3);
      assert a3 == OrEmpty(a.archiveRef) + [NUL] + OrEmpty(a.checksum);
      assert b3 == OrEmpty(b.archiveRef) + [NUL] + OrEmpty(b.checksum);
      JoinSeparates(OrEmpty(a.archiveRef), OrEmpty(a.checksum), OrEmpty(b.archiveRef), OrEmpty(b.checksum));
    }
  }

  /** A NUL inside a source type can swallow a reference: two different ones share a key. */
  lemma NulLosesEvidence() returns (current: seq<EvidenceRef>, incoming: seq<EvidenceRef>)
    ensures exists x :: x in current && x !in Merged(EvidenceKey, current + incoming)
  {
    var a, b := EvidenceRef("a" + [NUL] + "b", "c"), EvidenceRef("a", "b" + [NUL] + "c");
    current, incoming := [a], [b];
    assert EvidenceKey(a) == "a" + [NUL] + "b" + [NUL] + "c" == EvidenceKey(b);
    assert a.sourceType != b.sourceType;
    MergedMember(EvidenceKey, current + incoming, a);
    assert (current + incoming)[0] == a && (current + incoming)[1] == b;
    assert a in current && a !in Merged(EvidenceKey, current + incoming);
  }
}
