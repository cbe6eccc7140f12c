/** Where a worktree goes: two safe path segments below a base, derived from the project
    and the session name so that different ones never meet. */
module Placement {
  import opened Basics
  import Utf8
  import opened Utf16
  import opened CanonicalJson

  // ----- text

  predicate Alnum(u: Unit) { 48 <= u <= 57 || 65 <= u <= 90 || 97 <= u <= 122 }
  predicate SafeUnit(u: Unit) { Alnum(u) || u == 46 || u == 95 || u == 45 }
  /** A letter or digit, then letters, digits, dots, underscores and hyphens. */
  predicate Safe(s: Text) { s != [] && Alnum(s[0]) && forall u | u in s :: SafeUnit(u) }

  function ByteLength(s: Text): nat { |Bytes(s)| }
  /** Not empty, nothing to trim, no NUL, not too long. */
  predicate Bounded(s: Text, limit: nat) {
    s != [] && !White(s[0]) && !White(s[|s| - 1]) && 0 !in s && ByteLength(s) <= limit
  }

  const PROJECT_BYTES: nat := 128
  const PATH_BYTES: nat := 4096
  const BRANCH_BYTES: nat := 255
  const SEGMENT_BYTES: nat := 128
  const MAX_SEGMENTS: nat := 32
  const SESSION_NAME_MAX: nat := 20
  // "project-"
  const RESERVED: Text := [112, 114, 111, 106, 101, 99, 116, 45]

  function LowerUnit(u: Unit): Unit { if 65 <= u <= 90 then u + 32 else u }
  /** Starts with the reserved prefix, in any mixture of cases. */
  predicate IsReserved(s: Text) { |s| >= 8 && forall i | 0 <= i < 8 :: LowerUnit(s[i]) == RESERVED[i] }

  /** A digest in base64url: 43 characters made from bytes. */
  type Digest = seq<Utf8.Byte> -> Text
  ghost predicate DigestShape(d: Digest) {
    forall b :: |d(b)| == 43 && forall u | u in d(b) :: Alnum(u) || u == 95 || u == 45
  }
  /** The digest tells the bytes of these two texts apart. */
  ghost predicate TellsApart(d: Digest, p: Text, q: Text) { d(Bytes(p)) == d(Bytes(q)) ==> Bytes(p) == Bytes(q) }

  lemma {:induction false} AsciiLength(s: Text)
    requires forall u | u in s :: u < 0x80
    ensures ByteLength(s) == |s|
  {
    if s != [] {
      assert s[0] in s && forall u | u in s[1..] :: u in s;
      AsciiLength(s[1..]);
      var c := Scalars(s);
      assert c[0] == s[0] && c[1..] == Scalars(s[1..]);
    }
  }
  lemma SafeLength(s: Text)
    requires Safe(s)
    ensures ByteLength(s) == |s|
  {
    AsciiLength(s);
  }

  // ----- the segment of a project and the branch of a session

  function Hashed(d: Digest, s: Text): Text { RESERVED + d(Bytes(s)) }

  /** The project's own name can serve as its segment. */
  predicate Serves(project: Text) { Safe(project) && ByteLength(project) <= SEGMENT_BYTES && !IsReserved(project) }
  function ProjectSegment(d: Digest, project: Text): Text { if Serves(project) then project else Hashed(d, project) }
  function Branch(d: Digest, name: Text): Text { if Safe(name) then name else Hashed(d, name) }
  /** The name of a session is cut to twenty code units. */
  function Cut(name: Text): (r: Text)
    ensures |r| <= SESSION_NAME_MAX
  {
    if |name| <= SESSION_NAME_MAX then name else name[..SESSION_NAME_MAX]
  }

  lemma HashedIsSafe(d: Digest, s: Text)
    requires DigestShape(d)
    ensures Safe(Hashed(d, s)) && |Hashed(d, s)| == 51 && IsReserved(Hashed(d, s))
  {
    var h := Hashed(d, s);
    assert h[..8] == RESERVED;
    forall i | 0 <= i < 8 ensures h[i] == RESERVED[i] { assert h[i] == h[..8][i]; }
    forall u | u in h ensures SafeUnit(u) {
      if u !in RESERVED { assert u in d(Bytes(s)); }
    }
  }

  lemma SegmentIsSafe(d: Digest, project: Text)
    requires DigestShape(d) && Bounded(project, PROJECT_BYTES)
    ensures Safe(ProjectSegment(d, project)) && ByteLength(ProjectSegment(d, project)) <= SEGMENT_BYTES
  {
    HashedIsSafe(d, project);
    SafeLength(Hashed(d, project));
  }
  lemma BranchIsSafe(d: Digest, name: Text)
    requires DigestShape(d)
    ensures Safe(Branch(d, Cut(name))) && ByteLength(Branch(d, Cut(name))) <= 51
  {
    HashedIsSafe(d, Cut(name));
    SafeLength(Branch(d, Cut(name)));
  }

  lemma HashedEqual(d: Digest, p: Text, q: Text)
    requires TellsApart(d, p, q)
    ensures Hashed(d, p) == Hashed(d, q) <==> Scrubbed(p) == Scrubbed(q)
  {
    BytesEqualIffScrubbed(p, q);
    assert Hashed(d, p)[8..] == d(Bytes(p)) && Hashed(d, q)[8..] == d(Bytes(q));
  }

  /** The texts are one, or neither can be used as it is and both are written as the same bytes. */
  predicate Alike(p: Text, pServes: bool, q: Text, qServes: bool) {
    p == q || (!pServes && !qServes && Scrubbed(p) == Scrubbed(q))
  }

  /** Two projects share a segment exactly if they are one, or neither serves as a segment and
      they differ only in unpaired surrogates. */
  lemma SegmentsDiffer(d: Digest, p: Text, q: Text)
    requires DigestShape(d) && TellsApart(d, p, q)
    ensures ProjectSegment(d, p) == ProjectSegment(d, q) <==> Alike(p, Serves(p), q, Serves(q))
  {
    HashedIsSafe(d, p);
    HashedIsSafe(d, q);
    HashedEqual(d, p, q);
  }
  /** Two session names share a branch exactly if they are one, or both are unsafe and differ
      only in unpaired surrogates: a name taken over as it is has at most twenty characters, a
      digest one has 51. */
  lemma BranchesDiffer(d: Digest, m: Text, n: Text)
    requires DigestShape(d) && |m| <= SESSION_NAME_MAX && |n| <= SESSION_NAME_MAX && TellsApart(d, m, n)
    ensures Branch(d, m) == Branch(d, n) <==> Alike(m, Safe(m), n, Safe(n))
  {
    HashedIsSafe(d, m);
    HashedIsSafe(d, n);
    HashedEqual(d, m, n);
  }

  // 15 letters, then U+1F600 or U+1F900
  const LETTERS: Text := [97, 97, 97, 97, 97, 97, 97, 97, 97, 97, 97, 97, 97, 97, 97]
  const GRIN: Text := LETTERS + [0xD83D, 0xDE00]
  const MASK: Text := LETTERS + [0xD83E, 0xDD00]
  const APP: Text := [97, 112, 112]

  /** The session name of a project and a title. */
  function RawName(project: Text, title: Text): Text { Cut(project + [45] + title) }

  /** The cut to twenty units can split a surrogate pair: two different sessions of one
      project then share their branch, whatever the digest. */
  lemma CutPairShares(d: Digest)
    ensures RawName(APP, GRIN) != RawName(APP, MASK)
    ensures Branch(d, RawName(APP, GRIN)) == Branch(d, RawName(APP, MASK))
  {
    var stem := APP + [45] + LETTERS;
    assert APP + [45] + GRIN == stem + [0xD83D] + [0xDE00] && APP + [45] + MASK == stem + [0xD83E] + [0xDD00];
    var m, n := stem + [0xD83D], stem + [0xD83E];
    assert RawName(APP, GRIN) == m && RawName(APP, MASK) == n;
    assert m[19] == 0xD83D && n[19] == 0xD83E;
    assert m[19] in m && n[19] in n;
    LoneEndsShare(stem, 0xD83D, 0xD83E);
  }
  /** After plain letters, any unpaired high surrogate has the same bytes. */
  lemma LoneEndsShare(s: Text, u: Unit, v: Unit)
    requires (forall x | x in s :: x < 0x80) && High(u) && High(v)
    ensures Bytes(s + [u]) == Bytes(s + [v])
  {
    LoneEnds(s, u);
    LoneEnds(s, v);
    BytesEqualIffScrubbed(s + [u], s + [v]);
  }
  /** A high surrogate at the very end pairs with nothing. */
  lemma {:induction false} LoneEnds(s: Text, u: Unit)
    requires (forall x | x in s :: x < 0x80) && High(u)
    ensures Scrubbed(s + [u]) == s + [REPLACEMENT]
  {
    var t := s + [u];
    if s == [] {
      assert t == [u] && t[1..] == [];
    } else {
      assert t[0] == s[0] && s[0] in s && t[1..] == s[1..] + [u];
      assert forall x | x in s[1..] :: x in s;
      LoneEnds(s[1..], u);
      assert [s[0]] + (s[1..] + [REPLACEMENT]) == s + [REPLACEMENT];
    }
  }

  // ----- paths

  const SLASH: Unit := 47

  /** A name between two slashes of a normalized path. */
  predicate PathName(s: Text) { s != [] && SLASH !in s && s != [46] && s != [46, 46] }
  predicate AllPathNames(segments: seq<Text>) { forall s | s in segments :: PathName(s) }

  function Slashed(segments: seq<Text>): Text {
    if segments == [] then [] else [SLASH] + segments[0] + Slashed(segments[1..])
  }
  /** The absolute path of these segments. */
  function Render(segments: seq<Text>): Text { if segments == [] then [SLASH] else Slashed(segments) }

  function UpToSlash(t: Text): (n: nat)
    ensures n <= |t| && SLASH !in t[..n] && (n < |t| ==> t[n] == SLASH)
  {
    if t == [] || t[0] == SLASH then 0
    else
      var n := UpToSlash(t[1..]);
      assert t[..n + 1] == [t[0]] + t[1..][..n];
      n + 1
  }
  /** The parts between slashes. */
  function Split(t: Text): (r: seq<Text>)
    ensures |r| > 0
    decreases |t|
  {
    var n := UpToSlash(t);
    if n == |t| then [t] else [t[..n]] + Split(t[n + 1..])
  }
  /** The segments of a normalized absolute path, if it is one. */
  function Segments(path: Text): Option<seq<Text>> {
    if path == [SLASH] then Some([])
    else if path == [] || path[0] != SLASH then None
    else
      var parts := Split(path[1..]);
      if AllPathNames(parts) then Some(parts) else None
  }

  lemma {:induction false} UpToSlashIs(s: Text, rest: Text)
    requires SLASH !in s && (rest == [] || rest[0] == SLASH)
    ensures UpToSlash(s + rest) == |s|
  {
    if s == [] {
      assert s + rest == rest;
    } else {
      assert (s + rest)[1..] == s[1..] + rest && s[0] in s;
      UpToSlashIs(s[1..], rest);
    }
  }
  lemma SplitOne(s: Text)
    requires SLASH !in s
    ensures Split(s) == [s]
  {
    UpToSlashIs(s, []);
    assert s + [] == s;
  }
  lemma SplitStep(s: Text, more: Text)
    requires SLASH !in s
    ensures Split(s + ([SLASH] + more)) == [s] + Split(more)
  {
    var t := s + ([SLASH] + more);
    UpToSlashIs(s, [SLASH] + more);
    assert t[..|s|] == s && t[|s| + 1..] == more;
  }
  lemma {:induction false} SplitSlashed(segments: seq<Text>)
    requires segments != [] && AllPathNames(segments)
    ensures Split(Slashed(segments)[1..]) == segments
    decreases |segments|
  {
    var s, others := segments[0], segments[1..];
    assert s in segments && segments == [s] + others;
    assert Slashed(segments)[1..] == s + Slashed(others);
    if others == [] {
      SplitOne(s);
      assert s + [] == s;
    } else {
      assert forall x | x in others :: x in segments;
      SplitSlashed(others);
      var more := Slashed(others)[1..];
      assert Slashed(others) == [SLASH] + more;
      SplitStep(s, more);
    }
  }
  /** A path is read back as the segments it was made of. */
  lemma RenderReads(segments: seq<Text>)
    requires AllPathNames(segments)
    ensures Segments(Render(segments)) == Some(segments)
  {
    if segments != [] {
      SplitSlashed(segments);
      assert segments[0] in segments;
      assert Slashed(segments)[0] == SLASH && |Slashed(segments)| > 1;
    }
  }

  lemma SafeIsName(s: Text)
    requires Safe(s)
    ensures PathName(s)
  {
    assert s[0] in s;
  }

  // ----- the parser

  predicate SafeSegments(segments: seq<Text>) {
    0 < |segments| <= MAX_SEGMENTS && forall s | s in segments :: Safe(s) && ByteLength(s) <= SEGMENT_BYTES
  }
  predicate Prefix(a: seq<Text>, b: seq<Text>) { |a| <= |b| && b[..|a|] == a }

  /** The placement segment of a frozen path, if base, path and branch fit together. */
  function Parse(base: Text, path: Text, branch: Text): (r: Option<Text>) {
    if !Bounded(base, PATH_BYTES) || !Bounded(path, PATH_BYTES) || !Bounded(branch, BRANCH_BYTES) then None
    else
      var b, p, names := Segments(base), Segments(path), Split(branch);
      if b.None? || p.None? || !SafeSegments(names) || !Prefix(b.value, p.value) then None
      else
        var rest := p.value[|b.value|..];
        if !SafeSegments(rest) || |rest| != |names| + 1 || rest[1..] != names then None else Some(rest[0])
  }

  lemma {:induction false} SplitReads(t: Text)
    ensures Slashed(Split(t)) == [SLASH] + t
    decreases |t|
  {
    var n := UpToSlash(t);
    if n == |t| {
      var one := [t];
      assert one[1..] == [];
      assert Slashed(one) == [SLASH] + t + [];
    } else {
      SplitReads(t[n + 1..]);
      var all := [t[..n]] + Split(t[n + 1..]);
      assert all[1..] == Split(t[n + 1..]);
      assert t == t[..n] + ([SLASH] + t[n + 1..]);
    }
  }

  /** Where the worktree of a project and a session goes. */
  function PlacedAt(dp: Digest, db: Digest, base: seq<Text>, project: Text, name: Text): seq<Text> {
    base + [ProjectSegment(dp, project), Branch(db, Cut(name))]
  }

  lemma Pair(base: seq<Text>, x: Text, y: Text)
    ensures var all := base + [x, y]; Prefix(base, all) && all[|base|..] == [x, y] && [x, y][1..] == [y]
  {}
  lemma ParseAccepts(base: seq<Text>, segment: Text, branch: Text)
    requires AllPathNames(base) && Bounded(Render(base), PATH_BYTES) && Safe(segment) && Safe(branch)
    requires ByteLength(segment) <= SEGMENT_BYTES && ByteLength(branch) <= SEGMENT_BYTES
    ensures var path := Render(base + [segment, branch]);
      && Segments(path) == Some(base + [segment, branch])
      && Parse(Render(base), path, branch) == if Bounded(path, PATH_BYTES) then Some(segment) else None
  {
    var two := [segment, branch];
    var all := base + two;
    Pair(base, segment, branch);
    SafeIsName(segment);
    SafeIsName(branch);
    RenderReads(base);
    RenderReads(all);
    SafeIsBounded(branch);
    NoSlash(branch);
    assert SafeSegments(two) && SafeSegments([branch]);
  }

  /** Every accepted project and name: the path is the base and two safe segments, and the
      parser takes exactly the paths that are not too long, giving the project's segment. */
  lemma PlacementParses(dp: Digest, db: Digest, base: seq<Text>, project: Text, name: Text)
    requires DigestShape(dp) && DigestShape(db) && Bounded(project, PROJECT_BYTES)
    requires AllPathNames(base) && Bounded(Render(base), PATH_BYTES)
    ensures var segment, branch := ProjectSegment(dp, project), Branch(db, Cut(name));
      var path := Render(PlacedAt(dp, db, base, project, name));
      && Safe(segment) && Safe(branch)
      && Segments(path) == Some(base + [segment, branch])
      && Parse(Render(base), path, branch) == if Bounded(path, PATH_BYTES) then Some(segment) else None
  {
    SegmentIsSafe(dp, project);
    BranchIsSafe(db, name);
    ParseAccepts(base, ProjectSegment(dp, project), Branch(db, Cut(name)));
  }

  lemma SafeIsBounded(s: Text)
    requires Safe(s) && ByteLength(s) <= BRANCH_BYTES
    ensures Bounded(s, BRANCH_BYTES)
  {
    assert s[0] in s && s[|s| - 1] in s;
    assert forall u | u in s :: SafeUnit(u) && !White(u) && u != 0;
  }
  lemma NoSlash(s: Text)
    requires Safe(s)
    ensures Split(s) == [s]
  {
    SplitOne(s);
  }

  /** Two projects and session names share a path exactly if both the projects and the names
      are alike, as long as the digests tell the bytes at hand apart. */
  lemma PlacesDiffer(dp: Digest, db: Digest, base: seq<Text>, p: Text, m: Text, q: Text, n: Text)
    requires DigestShape(dp) && DigestShape(db) && AllPathNames(base) && Bounded(p, PROJECT_BYTES)
      && Bounded(q, PROJECT_BYTES)
    requires TellsApart(dp, p, q) && TellsApart(db, Cut(m), Cut(n))
    ensures Render(PlacedAt(dp, db, base, p, m)) == Render(PlacedAt(dp, db, base, q, n))
      <==> Alike(p, Serves(p), q, Serves(q)) && Alike(Cut(m), Safe(Cut(m)), Cut(n), Safe(Cut(n)))
  {
    var a, b := PlacedAt(dp, db, base, p, m), PlacedAt(dp, db, base, q, n);
    SegmentIsSafe(dp, p);
    SegmentIsSafe(dp, q);
    BranchIsSafe(db, m);
    BranchIsSafe(db, n);
    SafeIsName(ProjectSegment(dp, p));
    SafeIsName(ProjectSegment(dp, q));
    SafeIsName(Branch(db, Cut(m)));
    SafeIsName(Branch(db, Cut(n)));
    RenderReads(a);
    RenderReads(b);
    SegmentsDiffer(dp, p, q);
    BranchesDiffer(db, Cut(m), Cut(n));
    assert a[|base|] == ProjectSegment(dp, p) && b[|base|] == ProjectSegment(dp, q);
    assert a[|base| + 1] == Branch(db, Cut(m)) && b[|base| + 1] == Branch(db, Cut(n));
  }

  /** Where both can be written without loss, different projects or names never share a path. */
  lemma PairedPlacesDiffer(dp: Digest, db: Digest, base: seq<Text>, p: Text, m: Text, q: Text, n: Text)
    requires DigestShape(dp) && DigestShape(db) && AllPathNames(base) && Bounded(p, PROJECT_BYTES)
      && Bounded(q, PROJECT_BYTES)
    requires TellsApart(dp, p, q) && TellsApart(db, Cut(m), Cut(n))
    requires Paired(p) && Paired(q) && Paired(Cut(m)) && Paired(Cut(n))
    ensures Render(PlacedAt(dp, db, base, p, m)) == Render(PlacedAt(dp, db, base, q, n)) <==> p == q && Cut(m) == Cut(n)
  {
    PlacesDiffer(dp, db, base, p, m, q, n);
    PairedIsScrubbed(p);
    PairedIsScrubbed(q);
    PairedIsScrubbed(Cut(m));
    PairedIsScrubbed(Cut(n));
  }

  lemma SegmentsRender(path: Text)
    requires Segments(path).Some?
    ensures Render(Segments(path).value) == path && AllPathNames(Segments(path).value)
  {
    if path != [SLASH] {
      SplitReads(path[1..]);
      assert [SLASH] + path[1..] == path;
    }
  }

  lemma Below(b: seq<Text>, p: seq<Text>)
    requires Prefix(b, p) && |p| > |b|
    ensures p == b + [p[|b|]] + p[|b|..][1..]
  {}

  /** What the parser accepts lies below its base, at the placement and the branch, and
      nowhere else. */
  lemma ParsedIsClosed(base: Text, path: Text, branch: Text)
    requires Parse(base, path, branch).Some?
    ensures var segment := Parse(base, path, branch).value;
      Segments(base).Some? && path == Render(Segments(base).value + [segment] + Split(branch)) && Safe(segment)
  {
    var b, p := Segments(base).value, Segments(path).value;
    SegmentsRender(path);
    Below(b, p);
    assert p[|b|..][0] == p[|b|] && p[|b|] in p[|b|..];
  }

  // ----- the file system below a path

  datatype Filesystem = Filesystem(present: seq<Text> -> bool, directory: seq<Text> -> bool,
                                   realpath: seq<Text> -> seq<Text>)

  ghost predicate IsNearest(fs: Filesystem, path: seq<Text>, n: nat) {
    n <= |path| && fs.present(path[..n]) && forall k | n < k <= |path| :: !fs.present(path[..k])
  }
  lemma NearestIsOne(fs: Filesystem, path: seq<Text>, m: nat, n: nat)
    requires IsNearest(fs, path, m) && IsNearest(fs, path, n)
    ensures m == n
  {}

  method NearestExistingAncestor(fs: Filesystem, path: seq<Text>) returns (r: Option<nat>)
    ensures r.Some? ==> IsNearest(fs, path, r.value)
    ensures r.None? ==> forall k | 0 <= k <= |path| :: !fs.present(path[..k])
  {
    var n := |path|;
    while !fs.present(path[..n])
      invariant 0 <= n <= |path|
      invariant forall k | n < k <= |path| :: !fs.present(path[..k])
      decreases n
    {
      if n == 0 { return None; }
      n := n - 1;
    }
    return Some(n);
  }

  /** The real path of the nearest existing ancestor, which must be a directory, with the
      missing part restored. */
  method CanonicalProspectivePath(fs: Filesystem, path: seq<Text>) returns (r: Option<seq<Text>>)
    ensures r.Some? <==> exists n: nat :: IsNearest(fs, path, n) && fs.directory(path[..n])
    ensures forall n: nat | IsNearest(fs, path, n) && r.Some? :: r.value == fs.realpath(path[..n]) + path[n..]
  {
    var n := NearestExistingAncestor(fs, path);
    if n.None? { return None; }
    forall m: nat | IsNearest(fs, path, m) ensures m == n.value { NearestIsOne(fs, path, m, n.value); }
    if !fs.directory(path[..n.value]) { return None; }
    return Some(fs.realpath(path[..n.value]) + path[n.value..]);
  }

  /** No symbolic link on the way to the nearest existing ancestor. */
  ghost predicate Fenced(fs: Filesystem, path: seq<Text>) {
    exists n: nat :: IsNearest(fs, path, n) && fs.realpath(path[..n]) == path[..n]
  }

  /** The check made right before the mutation, on the base and on the worktree path. */
  method CheckFilesystem(fs: Filesystem, base: seq<Text>, path: seq<Text>) returns (ok: bool)
    ensures ok <==> Fenced(fs, base) && Fenced(fs, path)
  {
    var candidates := [base, path];
    var i := 0;
    while i < 2
      invariant 0 <= i <= 2
      invariant forall k | 0 <= k < i :: Fenced(fs, candidates[k])
    {
      var n := NearestExistingAncestor(fs, candidates[i]);
      if n.Some? {
        forall m: nat | IsNearest(fs, candidates[i], m) ensures m == n.value {
          NearestIsOne(fs, candidates[i], m, n.value);
        }
      }
      if n.None? || fs.realpath(candidates[i][..n.value]) != candidates[i][..n.value] {
        assert !Fenced(fs, candidates[i]);
        assert candidates[0] == base && candidates[1] == path;
        return false;
      }
      i := i + 1;
    }
    assert candidates[0] == base && candidates[1] == path;
    return true;
  }

  /** Real paths are real, and an alias has below it what its real path has. */
  ghost predicate Consistent(fs: Filesystem) {
    forall a | fs.present(a) ::
      && fs.realpath(fs.realpath(a)) == fs.realpath(a)
      && forall s: seq<Text> :: fs.present(fs.realpath(a) + s) <==> fs.present(a + s)
  }

  /** A base made canonical passes the fence. */
  lemma CanonicalIsFenced(fs: Filesystem, path: seq<Text>, n: nat)
    requires Consistent(fs) && IsNearest(fs, path, n)
    ensures Fenced(fs, fs.realpath(path[..n]) + path[n..])
  {
    var a, rest := path[..n], path[n..];
    var actual := fs.realpath(a);
    var whole := actual + rest;
    assert whole[..|actual|] == actual && a + [] == a && actual + [] == actual;
    forall k | |actual| < k <= |whole| ensures !fs.present(whole[..k]) {
      var s := rest[..k - |actual|];
      assert whole[..k] == actual + s && a + s == path[..n + |s|];
    }
    assert IsNearest(fs, whole, |actual|);
  }

  /** The worktree path below a canonical base passes as well, exactly if the project's
      directory, or the worktree's if that exists too, is no alias. */
  lemma WorktreeFenced(fs: Filesystem, base: seq<Text>, segment: Text, branch: Text)
    requires Fenced(fs, base) && (fs.present(base + [segment, branch]) ==> fs.present(base + [segment]))
    ensures Fenced(fs, base + [segment, branch]) <==>
      var deepest := if fs.present(base + [segment, branch]) then base + [segment, branch] else base + [segment];
      fs.present(deepest) ==> fs.realpath(deepest) == deepest
  {
    var path := base + [segment, branch];
    var n: nat :| IsNearest(fs, base, n) && fs.realpath(base[..n]) == base[..n];
    assert forall k | 0 <= k <= |base| :: path[..k] == base[..k];
    assert path[..|base| + 1] == base + [segment] && path[..|base| + 2] == path;
    var m := if fs.present(path) then |base| + 2 else if fs.present(base + [segment]) then |base| + 1 else n;
    forall k | m < k <= |path| ensures !fs.present(path[..k]) {
      if k <= |base| { assert path[..k] == base[..k]; }
    }
    assert IsNearest(fs, path, m);
    forall x: nat | IsNearest(fs, path, x) ensures x == m { NearestIsOne(fs, path, x, m); }
  }
}
