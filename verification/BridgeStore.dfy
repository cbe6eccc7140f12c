/** The bridge's four state files, rewritten only where their content changed. */
module BridgeStore {
  datatype Role = Bindings | Dedup | Turns | Replies

  const ROLES: seq<Role> := [Bindings, Dedup, Turns, Replies]

  type Disk = map<Role, string>

  /** A plain store that rewrites every file every time. */
  function Rewrite(disk: Disk, wanted: Role -> string, roles: seq<Role>): Disk
    decreases |roles|
  {
    if roles == [] then disk else Rewrite(disk[roles[0] := wanted(roles[0])], wanted, roles[1..])
  }

  lemma {:induction false} RewriteIs(disk: Disk, wanted: Role -> string, roles: seq<Role>, r: Role)
    ensures r in roles ==> r in Rewrite(disk, wanted, roles) && Rewrite(disk, wanted, roles)[r] == wanted(r)
    ensures r !in roles ==> (r in Rewrite(disk, wanted, roles) <==> r in disk)
    ensures r !in roles && r in disk ==> Rewrite(disk, wanted, roles)[r] == disk[r]
    decreases |roles|
  {
    if roles != [] {
      RewriteIs(disk[roles[0] := wanted(roles[0])], wanted, roles[1..], r);
      assert roles == [roles[0]] + roles[1..];
    }
  }

  lemma {:induction false} RewriteJoins(disk: Disk, wanted: Role -> string, a: seq<Role>, r: Role)
    ensures Rewrite(disk, wanted, a + [r]) == Rewrite(disk, wanted, a)[r := wanted(r)]
    decreases |a|
  {
    if a == [] {
      assert a + [r] == [r] && [r][1..] == a;
    } else {
      assert (a + [r])[1..] == a[1..] + [r];
      RewriteJoins(disk[a[0] := wanted(a[0])], wanted, a[1..], r);
    }
  }

  /** How many of these files are gone or hold something else than wanted. */
  function Stale(disk: Disk, known: map<Role, string>, wanted: Role -> string, roles: seq<Role>): nat {
    if roles == [] then 0
    else
      var r := roles[|roles| - 1];
      Stale(disk, known, wanted, roles[..|roles| - 1]) + if r in known && known[r] == wanted(r) && r in disk then 0 else 1
  }

  class FeishuBridgeStore {
    var files: Disk
    var lastSerialized: map<Role, string>
    // how many files were physically written
    var writes: nat

    /** A file that is still there has the content this store wrote last. */
    ghost predicate Valid()
      reads this
    {
      forall r | r in lastSerialized && r in files :: files[r] == lastSerialized[r]
    }

    /** A new process knows nothing about the files. */
    constructor (disk: Disk)
      ensures Valid() && files == disk && lastSerialized == map[] && writes == 0
    {
      files, lastSerialized, writes := disk, map[], 0;
    }

    /** The file already holds this content, as far as the store knows. */
    predicate Settled(role: Role, text: string)
      reads this
    {
      role in lastSerialized && lastSerialized[role] == text && role in files
    }

    method WriteIfChanged(role: Role, text: string, broken: bool) returns (ok: bool)
      requires Valid()
      modifies this
      ensures Valid()
      ensures ok <==> old(Settled(role, text)) || !broken
      ensures files == if ok then old(files)[role := text] else old(files)
      ensures writes == old(writes) + if old(Settled(role, text)) || !ok then 0 else 1
      ensures lastSerialized == if ok then old(lastSerialized)[role := text] else old(lastSerialized)
    {
      if Settled(role, text) {
        assert files[role := text] == files && lastSerialized[role := text] == lastSerialized;
        return true;
      }
      if broken { return false; }
      files, writes := files[role := text], writes + 1;
      lastSerialized := lastSerialized[role := text];
      return true;
    }

    /** Saves all four files, in order, up to the first one the disk refuses. */
    method Write(wanted: Role -> string, broken: set<Role>) returns (ok: bool, done: nat)
      requires Valid()
      modifies this
      ensures Valid() && done <= 4 && (ok <==> done == 4)
      ensures files == Rewrite(old(files), wanted, ROLES[..done])
      ensures !ok ==> ROLES[done] in broken
      ensures broken == {} ==> ok
      ensures ok ==> forall r :: r in lastSerialized && lastSerialized[r] == wanted(r)
      // a file is written only if its content changed or it is gone
      ensures writes == old(writes) + Stale(old(files), old(lastSerialized), wanted, ROLES[..done])
    {
      done, ok := 0, true;
      while done < 4
        invariant 0 <= done <= 4 && Valid() && ok
        invariant files == Rewrite(old(files), wanted, ROLES[..done])
        invariant forall i | 0 <= i < done :: ROLES[i] in lastSerialized && lastSerialized[ROLES[i]] == wanted(ROLES[i])
        invariant writes == old(writes) + Stale(old(files), old(lastSerialized), wanted, ROLES[..done])
        invariant forall i | done <= i < 4 :: Settled(ROLES[i], wanted(ROLES[i])) == old(Settled(ROLES[i], wanted(ROLES[i])))
      {
        RewriteJoins(old(files), wanted, ROLES[..done], ROLES[done]);
        assert ROLES[..done + 1] == ROLES[..done] + [ROLES[done]];
        ok := WriteIfChanged(ROLES[done], wanted(ROLES[done]), ROLES[done] in broken);
        if !ok { return; }
        done := done + 1;
      }
      forall r ensures r in lastSerialized && lastSerialized[r] == wanted(r) {
        assert r == ROLES[0] || r == ROLES[1] || r == ROLES[2] || r == ROLES[3];
      }
    }

    /** Somebody outside deletes a file. */
    method LoseFile(role: Role)
      requires Valid()
      modifies this
      ensures Valid() && files == old(files) - {role} && lastSerialized == old(lastSerialized)
    {
      files := files - {role};
    }
  }

  // ----- whole runs

  datatype Action = Save(wanted: Role -> string) | Deleted(role: Role) | Reopened

  /** The files a plain store would leave. */
  function Plain(disk: Disk, script: seq<Action>): Disk
    decreases |script|
  {
    if script == [] then disk
    else match script[0]
      case Save(wanted) => Plain(Rewrite(disk, wanted, ROLES), script[1..])
      case Deleted(role) => Plain(disk - {role}, script[1..])
      case Reopened => Plain(disk, script[1..])
  }

  /** Under saves, outside deletions and process restarts in any order, the files are
      always those of the plain store. */
  method Play(disk: Disk, script: seq<Action>) returns (files: Disk)
    ensures files == Plain(disk, script)
  {
    var store := new FeishuBridgeStore(disk);
    var i := 0;
    assert script[0..] == script;
    while i < |script|
      invariant 0 <= i <= |script| && fresh(store) && store.Valid()
      invariant Plain(store.files, script[i..]) == Plain(disk, script)
    {
      assert script[i..][0] == script[i] && script[i..][1..] == script[i + 1..];
      match script[i] {
        case Save(wanted) =>
          var ok, done := store.Write(wanted, {});
          assert ROLES[..4] == ROLES;
        case Deleted(role) => store.LoseFile(role);
        case Reopened => store := new FeishuBridgeStore(store.files);
      }
      i := i + 1;
    }
    return store.files;
  }
}
