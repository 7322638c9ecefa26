/** Firmware image comparison and patching: maximal changed runs, and candidates built from disjoint patches. */
module Firmware {
  import opened Wrappers
  import opened Bytes
  import opened Domain

  /** A nonempty half-open range. */
  datatype RawRange = RawRange(start: nat, end: nat) {
    predicate Overlaps(other: RawRange) {
      start < other.end && other.start < end
    }

    predicate Contains(k: int) {
      start <= k < end
    }

    function Length(): int {
      end - start
    }
  }

  type ByteRange = r: RawRange | r.start < r.end witness RawRange(0, 1)

  datatype FirmwareError =
    | InvalidDiffRangeLimit
    | ImageLengthMismatch
    | BaseDigestMismatch
    | RangeOutOfBounds
    | PatchLengthMismatch
    | OverlappingPatches
    | PatchTouchesProtectedRange

  const MAX_REPORTED_DIFF_RANGES := 4096

  // ----- Comparison -----

  predicate Covered(ranges: seq<ByteRange>, k: int) {
    exists i | 0 <= i < |ranges| :: ranges[i].Contains(k)
  }

  /** A run of differing bytes that no differing byte extends on either side. */
  predicate MaximalRun(left: seq<Byte>, right: seq<Byte>, r: ByteRange)
    requires |left| == |right|
  {
    && r.end <= |left|
    && (forall k | r.start <= k < r.end :: left[k] != right[k])
    && (r.start > 0 ==> left[r.start - 1] == right[r.start - 1])
    && (r.end < |left| ==> left[r.end] == right[r.end])
  }

  /** The maximal differing runs below `upTo`, in order. */
  predicate Runs(left: seq<Byte>, right: seq<Byte>, ranges: seq<ByteRange>, upTo: nat)
    requires |left| == |right| && upTo <= |left|
  {
    && (forall i | 0 <= i < |ranges| :: ranges[i].end <= upTo && MaximalRun(left, right, ranges[i]))
    && (forall i, k | 0 <= i < k < |ranges| :: ranges[i].end < ranges[k].start)
    && (forall k | 0 <= k < upTo :: left[k] != right[k] <==> Covered(ranges, k))
  }

  function DiffCount(left: seq<Byte>, right: seq<Byte>, upTo: nat): nat
    requires |left| == |right| && upTo <= |left|
  {
    if upTo == 0 then 0 else DiffCount(left, right, upTo - 1) + if left[upTo - 1] != right[upTo - 1] then 1 else 0
  }

  function TotalLength(ranges: seq<ByteRange>): nat {
    if ranges == [] then 0 else TotalLength(ranges[..|ranges| - 1]) + ranges[|ranges| - 1].Length()
  }

  datatype Comparison = Comparison(changedBytes: nat, changedRangeCount: nat, changedRanges: seq<ByteRange>, complete: bool)

  function Capped(ranges: seq<ByteRange>, limit: nat): seq<ByteRange> {
    if |ranges| <= limit then ranges else ranges[..limit]
  }

  method AppendChangedRange(reported: seq<ByteRange>, limit: nat, range: ByteRange, ghost all: seq<ByteRange>) returns (r: seq<ByteRange>)
    requires reported == Capped(all, limit)
    ensures r == Capped(all + [range], limit)
  {
    r := if |reported| < limit then reported + [range] else reported;
    assert |all| >= limit ==> (all + [range])[..limit] == all[..limit];
  }

  lemma CoveredBy(all: seq<ByteRange>, range: ByteRange, k: int)
    ensures Covered(all + [range], k) <==> Covered(all, k) || range.Contains(k)
  {
    var ranges := all + [range];
    if Covered(all, k) {
      var i :| 0 <= i < |all| && all[i].Contains(k);
      assert ranges[i].Contains(k);
    }
    if range.Contains(k) { assert ranges[|all|].Contains(k); }
    if Covered(ranges, k) {
      var i :| 0 <= i < |ranges| && ranges[i].Contains(k);
      if i < |all| { assert all[i].Contains(k); }
    }
  }

  /** A run that started at `start` and is still differing just before `index`. */
  predicate Open(left: seq<Byte>, right: seq<Byte>, all: seq<ByteRange>, start: nat, index: nat)
    requires |left| == |right| && index <= |left|
  {
    && start < index && Runs(left, right, all, start)
    && (forall k | start <= k < index :: left[k] != right[k])
    && (start > 0 ==> left[start - 1] == right[start - 1])
    && (forall i | 0 <= i < |all| :: all[i].end < start)
  }

  lemma RunOpens(left: seq<Byte>, right: seq<Byte>, all: seq<ByteRange>, index: nat)
    requires |left| == |right| && index < |left| && Runs(left, right, all, index) && left[index] != right[index]
    requires index > 0 ==> left[index - 1] == right[index - 1]
    ensures Open(left, right, all, index, index + 1)
  {
    forall i | 0 <= i < |all|
      ensures all[i].end < index
    {
      assert MaximalRun(left, right, all[i]);
    }
    hide Covered;
  }

  lemma RunCloses(left: seq<Byte>, right: seq<Byte>, all: seq<ByteRange>, range: ByteRange)
    requires |left| == |right| && range.end <= |left| && Open(left, right, all, range.start, range.end)
    requires range.end < |left| ==> left[range.end] == right[range.end]
    ensures Runs(left, right, all + [range], range.end)
    ensures TotalLength(all + [range]) == TotalLength(all) + range.Length()
  {
    var ranges := all + [range];
    assert ranges[..|all|] == all;
    hide Covered, TotalLength;
    forall k | 0 <= k < range.end
      ensures left[k] != right[k] <==> Covered(ranges, k)
    {
      CoveredBy(all, range, k);
    }
    assert MaximalRun(left, right, range);
  }

  /** A byte that is equal extends the compared part without a new run. */
  lemma EqualExtends(left: seq<Byte>, right: seq<Byte>, all: seq<ByteRange>, upTo: nat)
    requires |left| == |right| && upTo < |left| && Runs(left, right, all, upTo) && left[upTo] == right[upTo]
    ensures Runs(left, right, all, upTo + 1)
  {
    assert !Covered(all, upTo);
  }

  /** Scans both images once; `all` are the runs found, of which the first `limit` are reported. */
  method CompareImages(left: seq<Byte>, right: seq<Byte>, limit: nat) returns (r: Result<Comparison, FirmwareError>, ghost all: seq<ByteRange>)
    ensures !(1 <= limit <= MAX_REPORTED_DIFF_RANGES) ==> r == Err(InvalidDiffRangeLimit)
    ensures 1 <= limit <= MAX_REPORTED_DIFF_RANGES && |left| != |right| ==> r == Err(ImageLengthMismatch)
    ensures r.Ok? <==> 1 <= limit <= MAX_REPORTED_DIFF_RANGES && |left| == |right|
    ensures r.Ok? ==>
              && Runs(left, right, all, |left|)
              && r.value.changedRanges == Capped(all, limit) && r.value.changedRangeCount == |all|
              && (r.value.complete <==> r.value.changedRanges == all)
              && r.value.changedBytes == DiffCount(left, right, |left|) == TotalLength(all)
  {
    hide Runs, TotalLength;
    all := [];
    if limit < 1 || limit > MAX_REPORTED_DIFF_RANGES { return Err(InvalidDiffRangeLimit), all; }
    if |left| != |right| { return Err(ImageLengthMismatch), all; }
    NoRuns(left, right);
    var changedBytes, count := 0, 0;
    var start: Option<nat> := None;
    var reported: seq<ByteRange> := [];
    for index := 0 to |left|
      invariant changedBytes == DiffCount(left, right, index)
      invariant count == |all| && reported == Capped(all, limit)
      invariant start.None? ==> Runs(left, right, all, index) && changedBytes == TotalLength(all)
      invariant start.Some? ==> Open(left, right, all, start.value, index) && changedBytes == TotalLength(all) + (index - start.value)
      invariant start.None? && index > 0 ==> left[index - 1] == right[index - 1]
    {
      if left[index] != right[index] {
        changedBytes := changedBytes + 1;
        if start.None? {
          start := Some(index);
          RunOpens(left, right, all, index);
        }
      } else {
        if start.Some? {
          var range: ByteRange := RawRange(start.value, index);
          RunCloses(left, right, all, range);
          count := count + 1;
          reported := AppendChangedRange(reported, limit, range, all);
          all := all + [range];
          start := None;
        }
        EqualExtends(left, right, all, index);
      }
    }
    if start.Some? {
      var range: ByteRange := RawRange(start.value, |left|);
      RunCloses(left, right, all, range);
      count := count + 1;
      reported := AppendChangedRange(reported, limit, range, all);
      all := all + [range];
    }
    return Ok(Comparison(changedBytes, count, reported, count == |reported|)), all;
  }

  lemma NoRuns(left: seq<Byte>, right: seq<Byte>)
    requires |left| == |right|
    ensures Runs(left, right, [], 0) && TotalLength([]) == 0
  {
  }

  // ----- Candidates -----

  datatype Patch = Patch(range: ByteRange, replacement: seq<Byte>)

  /** No two patches, at different positions of the list, overlap. */
  predicate Disjoint(patches: seq<Patch>) {
    forall i, k | 0 <= i < k < |patches| :: !patches[i].range.Overlaps(patches[k].range)
  }

  predicate Touches(p: Patch, ranges: seq<ByteRange>) {
    exists r | r in ranges :: p.range.Overlaps(r)
  }

  /** Everything `BuildCandidate` demands of its inputs. */
  predicate Acceptable(original: seq<Byte>, expected: Digest<seq<Byte>>, patches: seq<Patch>, protected: seq<ByteRange>) {
    && expected == Sha256(original)
    && (forall r | r in protected :: r.end <= |original|)
    && (forall p | p in patches :: p.range.end <= |original| && |p.replacement| == p.range.Length() && !Touches(p, protected))
    && Disjoint(patches)
  }

  predicate CoveredByPatch(patches: seq<Patch>, k: int) {
    exists p | p in patches :: p.range.Contains(k)
  }

  /** Every patch is in place and every other byte is the original one. */
  predicate IsPatched(original: seq<Byte>, patches: seq<Patch>, candidate: seq<Byte>) {
    && |candidate| == |original|
    && (forall p, k | p in patches && p.range.Contains(k) && 0 <= k < |candidate| && k - p.range.start < |p.replacement| ::
          candidate[k] == p.replacement[k - p.range.start])
    && (forall k | 0 <= k < |candidate| && !CoveredByPatch(patches, k) :: candidate[k] == original[k])
  }

  /** The patched image is determined by the set of patches, whatever their order. */
  lemma CandidateIsUnique(original: seq<Byte>, a: seq<Patch>, b: seq<Patch>, x: seq<Byte>, y: seq<Byte>)
    requires forall p :: p in a <==> p in b
    requires forall p | p in a :: p.range.end <= |original| && |p.replacement| == p.range.Length()
    requires IsPatched(original, a, x) && IsPatched(original, b, y)
    ensures x == y
  {
    forall k | 0 <= k < |x|
      ensures x[k] == y[k]
    {
      if CoveredByPatch(a, k) {
        var p :| p in a && p.range.Contains(k);
        assert p in b;
      } else {
        assert !CoveredByPatch(b, k);
      }
    }
  }

  // ----- Sorting by start -----

  predicate Sorted(patches: seq<Patch>) {
    forall i, k | 0 <= i < k < |patches| :: patches[i].range.start <= patches[k].range.start
  }

  /** Stable insertion: before the first patch that starts later. */
  function Insert(p: Patch, patches: seq<Patch>): (r: seq<Patch>)
    ensures multiset(r) == multiset{p} + multiset(patches)
    ensures Sorted(patches) ==> Sorted(r)
  {
    if patches == [] || p.range.start <= patches[0].range.start then
      assert multiset([p] + patches) == multiset{p} + multiset(patches);
      [p] + patches
    else
      var rest := Insert(p, patches[1..]);
      assert patches == [patches[0]] + patches[1..];
      assert multiset([patches[0]] + rest) == multiset{patches[0]} + multiset(rest);
      InsertKeepsOrder(patches[0], patches[1..], p, rest);
      [patches[0]] + rest
  }

  lemma InsertKeepsOrder(first: Patch, tail: seq<Patch>, p: Patch, rest: seq<Patch>)
    requires first.range.start < p.range.start && multiset(rest) == multiset{p} + multiset(tail)
    requires Sorted(tail) ==> Sorted(rest)
    ensures Sorted([first] + tail) ==> Sorted([first] + rest)
  {
    if Sorted([first] + tail) {
      forall i, k | 0 <= i < k < |tail|
        ensures tail[i].range.start <= tail[k].range.start
      {
        assert ([first] + tail)[i + 1] == tail[i] && ([first] + tail)[k + 1] == tail[k];
      }
      assert ([first] + tail)[0] == first;
      forall k | 0 <= k < |rest|
        ensures first.range.start <= rest[k].range.start
      {
        assert rest[k] in multiset(rest);
        if rest[k] != p {
          assert rest[k] in multiset(tail);
          var i :| 0 <= i < |tail| && tail[i] == rest[k];
          assert ([first] + tail)[i + 1] == tail[i];
        }
      }
    }
  }

  function SortByStart(patches: seq<Patch>): (r: seq<Patch>)
    ensures multiset(r) == multiset(patches) && Sorted(r)
  {
    if patches == [] then []
    else
      assert patches == [patches[0]] + patches[1..];
      Insert(patches[0], SortByStart(patches[1..]))
  }

  lemma {:induction false} RepeatedTwice(s: seq<Patch>, p: Patch) returns (i: nat, k: nat)
    requires multiset(s)[p] >= 2
    ensures i < k < |s| && s[i] == p && s[k] == p
    decreases |s|
  {
    assert s == [s[0]] + s[1..];
    if s[0] == p {
      assert p in multiset(s[1..]);
      k :| 0 <= k < |s[1..]| && s[1..][k] == p;
      i, k := 0, k + 1;
    } else {
      i, k := RepeatedTwice(s[1..], p);
      i, k := i + 1, k + 1;
    }
  }

  /** Being disjoint depends only on which patches there are, and how often. */
  predicate DisjointBag(bag: multiset<Patch>) {
    (forall p | p in bag :: bag[p] == 1) && forall p, q | p in bag && q in bag && p != q :: !p.range.Overlaps(q.range)
  }

  lemma TwicePresent(s: seq<Patch>, i: nat, k: nat)
    requires i < k < |s| && s[i] == s[k]
    ensures multiset(s)[s[k]] >= 2
  {
    assert s == s[..k] + [s[k]] + s[k + 1..];
    assert s[..k][i] == s[k];
  }

  lemma DisjointIsBag(s: seq<Patch>)
    ensures Disjoint(s) <==> DisjointBag(multiset(s))
  {
    if Disjoint(s) {
      forall p | p in multiset(s)
        ensures multiset(s)[p] == 1
      {
        if multiset(s)[p] >= 2 {
          var i, k := RepeatedTwice(s, p);
          assert false;
        }
      }
      forall p, q | p in multiset(s) && q in multiset(s) && p != q
        ensures !p.range.Overlaps(q.range)
      {
        var i :| 0 <= i < |s| && s[i] == p;
        var k :| 0 <= k < |s| && s[k] == q;
      }
    }
    if DisjointBag(multiset(s)) {
      forall i, k | 0 <= i < k < |s|
        ensures !s[i].range.Overlaps(s[k].range)
      {
        assert s[i] in multiset(s) && s[k] in multiset(s);
        if s[i] == s[k] { TwicePresent(s, i, k); }
      }
    }
  }

  lemma SameBagDisjoint(a: seq<Patch>, b: seq<Patch>)
    requires multiset(a) == multiset(b)
    ensures Disjoint(a) <==> Disjoint(b)
  {
    DisjointIsBag(a);
    DisjointIsBag(b);
  }

  predicate AdjacentDisjoint(s: seq<Patch>, upTo: nat)
    requires upTo <= |s|
  {
    forall i | 0 < i < upTo :: !s[i - 1].range.Overlaps(s[i].range)
  }

  /** After sorting, comparing each patch with the one before it is enough. */
  lemma AdjacentIsEnough(s: seq<Patch>)
    requires Sorted(s)
    ensures AdjacentDisjoint(s, |s|) <==> Disjoint(s)
  {
    if AdjacentDisjoint(s, |s|) {
      forall i, k | 0 <= i < k < |s|
        ensures !s[i].range.Overlaps(s[k].range)
      {
        assert !s[i + 1 - 1].range.Overlaps(s[i + 1].range);
        assert s[i].range.end <= s[i + 1].range.start;
      }
    }
    if Disjoint(s) {
      forall i | 0 < i < |s|
        ensures !s[i - 1].range.Overlaps(s[i].range)
      {
      }
    }
  }

  // ----- Building -----

  predicate PatchFits(original: seq<Byte>, p: Patch, protected: seq<ByteRange>) {
    p.range.end <= |original| && |p.replacement| == p.range.Length() && !Touches(p, protected)
  }

  /** What is wrong with patch `i` of the sorted list, as far as the patches up to it tell. */
  function PatchFault(original: seq<Byte>, ordered: seq<Patch>, protected: seq<ByteRange>, i: nat): Option<FirmwareError>
    requires i < |ordered|
  {
    var p := ordered[i];
    if p.range.end > |original| then Some(RangeOutOfBounds)
    else if |p.replacement| != p.range.Length() then Some(PatchLengthMismatch)
    else if i > 0 && ordered[i - 1].range.Overlaps(p.range) then Some(OverlappingPatches)
    else if Touches(p, protected) then Some(PatchTouchesProtectedRange)
    else None
  }

  /** `error` is the fault of the first faulty patch. */
  predicate FirstFault(original: seq<Byte>, ordered: seq<Patch>, protected: seq<ByteRange>, error: FirmwareError) {
    exists i | 0 <= i < |ordered| ::
      PatchFault(original, ordered, protected, i) == Some(error)
      && forall k | 0 <= k < i :: PatchFault(original, ordered, protected, k) == None
  }

  /** The checks of the sorted list, in order. */
  method CheckPatches(original: seq<Byte>, ordered: seq<Patch>, protected: seq<ByteRange>) returns (r: Outcome<FirmwareError>)
    requires Sorted(ordered)
    ensures r.Pass? <==> (forall p | p in ordered :: PatchFits(original, p, protected)) && Disjoint(ordered)
    ensures r.Fail? ==> FirstFault(original, ordered, protected, r.error)
  {
    for i := 0 to |ordered|
      invariant forall k | 0 <= k < i :: PatchFits(original, ordered[k], protected)
      invariant AdjacentDisjoint(ordered, i)
      invariant forall k | 0 <= k < i :: PatchFault(original, ordered, protected, k) == None
    {
      var p := ordered[i];
      ghost var fault := PatchFault(original, ordered, protected, i);
      AdjacentIsEnough(ordered);
      assert !PatchFits(original, p, protected) ==> exists q | q in ordered :: !PatchFits(original, q, protected);
      if p.range.end > |original| { return Fail(RangeOutOfBounds); }
      if |p.replacement| != p.range.Length() { return Fail(PatchLengthMismatch); }
      if i > 0 && ordered[i - 1].range.Overlaps(p.range) {
        assert !AdjacentDisjoint(ordered, |ordered|);
        return Fail(OverlappingPatches);
      }
      if exists q | q in protected :: p.range.Overlaps(q) { return Fail(PatchTouchesProtectedRange); }
    }
    AdjacentIsEnough(ordered);
    return Pass;
  }

  method CopyInto(candidate: array<Byte>, start: nat, replacement: seq<Byte>)
    requires start + |replacement| <= candidate.Length
    modifies candidate
    ensures forall k | 0 <= k < candidate.Length ::
              candidate[k] == if start <= k < start + |replacement| then replacement[k - start] else old(candidate[k])
  {
    for i := 0 to |replacement|
      invariant forall k | 0 <= k < candidate.Length ::
                  candidate[k] == if start <= k < start + i then replacement[k - start] else old(candidate[k])
    {
      candidate[start + i] := replacement[i];
    }
  }

  method ApplyPatches(original: seq<Byte>, ordered: seq<Patch>) returns (candidate: array<Byte>)
    requires Disjoint(ordered) && forall p | p in ordered :: p.range.end <= |original| && |p.replacement| == p.range.Length()
    ensures fresh(candidate) && IsPatched(original, ordered, candidate[..])
  {
    candidate := new Byte[|original|](i requires 0 <= i < |original| => original[i]);
    for n := 0 to |ordered|
      invariant forall i, k | 0 <= i < n && ordered[i].range.Contains(k) :: candidate[k] == ordered[i].replacement[k - ordered[i].range.start]
      invariant forall k | 0 <= k < candidate.Length && !CoveredByPatch(ordered[..n], k) :: candidate[k] == original[k]
    {
      var p := ordered[n];
      CopyInto(candidate, p.range.start, p.replacement);
      assert p in ordered[..n + 1];
      assert forall q | q in ordered[..n] :: q in ordered[..n + 1];
    }
    assert ordered[..|ordered|] == ordered;
  }

  /** Accepts exactly the acceptable inputs, and then returns the patched image. */
  method BuildCandidate(original: seq<Byte>, expected: Digest<seq<Byte>>, patches: seq<Patch>, protected: seq<ByteRange>)
    returns (r: Result<seq<Byte>, FirmwareError>)
    ensures r.Ok? <==> Acceptable(original, expected, patches, protected)
    ensures r.Ok? ==> IsPatched(original, patches, r.value)
    ensures r == Err(BaseDigestMismatch) <==> expected != Sha256(original)
    ensures expected == Sha256(original) && (exists q | q in protected :: q.end > |original|) ==> r == Err(RangeOutOfBounds)
    ensures r.Err? && expected == Sha256(original) && (forall q | q in protected :: q.end <= |original|) ==>
              FirstFault(original, SortByStart(patches), protected, r.error)
  {
    if Sha256(original) != expected { return Err(BaseDigestMismatch); }
    for i := 0 to |protected|
      invariant forall k | 0 <= k < i :: protected[k].end <= |original|
    {
      if protected[i].end > |original| { return Err(RangeOutOfBounds); }
    }
    var ordered := SortByStart(patches);
    SameBagDisjoint(ordered, patches);
    SameMembers(ordered, patches);
    var checked := CheckPatches(original, ordered, protected);
    if checked.Fail? { return Err(checked.error); }
    var candidate := ApplyPatches(original, ordered);
    SamePatched(original, ordered, patches, candidate[..]);
    return Ok(candidate[..]);
  }

  lemma SameMembers(a: seq<Patch>, b: seq<Patch>)
    requires multiset(a) == multiset(b)
    ensures forall p :: p in a <==> p in b
  {
    forall p
      ensures p in a <==> p in b
    {
      assert p in a <==> p in multiset(a);
      assert p in b <==> p in multiset(b);
    }
  }

  lemma SamePatched(original: seq<Byte>, a: seq<Patch>, b: seq<Patch>, candidate: seq<Byte>)
    requires (forall p :: p in a <==> p in b) && IsPatched(original, a, candidate)
    ensures IsPatched(original, b, candidate)
  {
    forall k | 0 <= k < |candidate|
      ensures CoveredByPatch(a, k) <==> CoveredByPatch(b, k)
    {
    }
  }

  // ----- What candidates guarantee -----

  /** Patch order matters neither for acceptance nor for the bytes. */
  lemma OrderDoesNotMatter(original: seq<Byte>, expected: Digest<seq<Byte>>, a: seq<Patch>, b: seq<Patch>, protected: seq<ByteRange>,
                           x: seq<Byte>, y: seq<Byte>)
    requires multiset(a) == multiset(b)
    ensures Acceptable(original, expected, a, protected) <==> Acceptable(original, expected, b, protected)
    ensures Acceptable(original, expected, a, protected) && IsPatched(original, a, x) && IsPatched(original, b, y) ==> x == y
  {
    SameMembers(a, b);
    SameBagDisjoint(a, b);
    if Acceptable(original, expected, a, protected) && IsPatched(original, a, x) && IsPatched(original, b, y) {
      CandidateIsUnique(original, a, b, x, y);
    }
  }

  /** Protected bytes, and bytes outside every patch, are preserved. */
  lemma ProtectedBytesStay(original: seq<Byte>, expected: Digest<seq<Byte>>, patches: seq<Patch>, protected: seq<ByteRange>,
                           candidate: seq<Byte>, r: ByteRange, k: nat)
    requires Acceptable(original, expected, patches, protected) && IsPatched(original, patches, candidate)
    requires r in protected && r.Contains(k)
    ensures k < |candidate| && candidate[k] == original[k]
  {
    forall p | p in patches
      ensures !p.range.Contains(k)
    {
      assert !Touches(p, protected);
    }
    assert !CoveredByPatch(patches, k);
  }

  function Cut(right: seq<Byte>, ranges: seq<ByteRange>): (r: seq<Patch>)
    requires forall q | q in ranges :: q.end <= |right|
    ensures |r| == |ranges| && forall i | 0 <= i < |r| :: r[i] == Patch(ranges[i], right[ranges[i].start..ranges[i].end])
  {
    seq(|ranges|, i requires 0 <= i < |ranges| => Patch(ranges[i], right[ranges[i].start..ranges[i].end]))
  }

  lemma CutIsAcceptable(left: seq<Byte>, right: seq<Byte>, ranges: seq<ByteRange>)
    requires |left| == |right| && Runs(left, right, ranges, |left|) && (forall q | q in ranges :: q.end <= |right|)
    ensures Acceptable(left, Sha256(left), Cut(right, ranges), [])
  {
    var patches := Cut(right, ranges);
    forall i, k | 0 <= i < k < |patches|
      ensures !patches[i].range.Overlaps(patches[k].range)
    {
      assert ranges[i].end < ranges[k].start;
    }
    hide Runs, Covered;
  }

  lemma CutCovers(right: seq<Byte>, ranges: seq<ByteRange>, k: nat)
    requires (forall q | q in ranges :: q.end <= |right|) && Covered(ranges, k)
    ensures CoveredByPatch(Cut(right, ranges), k)
  {
    var i :| 0 <= i < |ranges| && ranges[i].Contains(k);
    assert Cut(right, ranges)[i] in Cut(right, ranges) && Cut(right, ranges)[i].range.Contains(k);
  }

  lemma CutHoldsRight(right: seq<Byte>, ranges: seq<ByteRange>, p: Patch, k: nat)
    requires (forall q | q in ranges :: q.end <= |right|) && p in Cut(right, ranges) && p.range.Contains(k)
    requires k - p.range.start < |p.replacement|
    ensures k < |right| && right[k] == p.replacement[k - p.range.start]
  {
    var i :| 0 <= i < |ranges| && Cut(right, ranges)[i] == p;
    assert ranges[i] in ranges;
  }

  lemma OutsideIsSame(left: seq<Byte>, right: seq<Byte>, ranges: seq<ByteRange>, k: nat)
    requires |left| == |right| && Runs(left, right, ranges, |left|) && (forall q | q in ranges :: q.end <= |right|)
    requires k < |right| && !CoveredByPatch(Cut(right, ranges), k)
    ensures right[k] == left[k]
  {
    hide CoveredByPatch;
    if left[k] != right[k] { CutCovers(right, ranges, k); }
  }

  lemma CutPatchesRight(left: seq<Byte>, right: seq<Byte>, ranges: seq<ByteRange>)
    requires |left| == |right| && Runs(left, right, ranges, |left|) && (forall q | q in ranges :: q.end <= |right|)
    ensures IsPatched(left, Cut(right, ranges), right)
  {
    var patches := Cut(right, ranges);
    hide Runs, CoveredByPatch, Cut;
    forall k | 0 <= k < |right| && !CoveredByPatch(patches, k)
      ensures right[k] == left[k]
    {
      OutsideIsSame(left, right, ranges, k);
    }
    forall p, k | p in patches && p.range.Contains(k) && 0 <= k < |right| && k - p.range.start < |p.replacement|
      ensures right[k] == p.replacement[k - p.range.start]
    {
      CutHoldsRight(right, ranges, p, k);
    }
  }

  /** Diff and patch undo each other: patches cut from the right image at all the changed ranges are accepted on
      the left image with nothing protected, and the only image they can produce is the right one. */
  lemma DiffThenPatch(left: seq<Byte>, right: seq<Byte>, ranges: seq<ByteRange>, candidate: seq<Byte>)
    requires |left| == |right| && Runs(left, right, ranges, |left|) && (forall q | q in ranges :: q.end <= |right|)
    ensures Acceptable(left, Sha256(left), Cut(right, ranges), [])
    ensures IsPatched(left, Cut(right, ranges), candidate) <==> candidate == right
  {
    var patches := Cut(right, ranges);
    CutIsAcceptable(left, right, ranges);
    CutPatchesRight(left, right, ranges);
    hide Runs, IsPatched, Covered;
    if IsPatched(left, patches, candidate) {
      CandidateIsUnique(left, patches, patches, candidate, right);
    }
  }
}
