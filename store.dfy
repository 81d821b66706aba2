/**
 * The persistent store of config.go: the user list and the per-user offline
 * queues, their two data files, and the in-memory index from user names and
 * aliases to user records.
 *
 * Go pointers into this state are modelled explicitly: a `Ptr` is either a
 * pointer to an element of the `users` slice or to a record that lives apart
 * from it (the per-iteration copy that Load takes the address of).
 */
module Store {
  import opened Wrappers
  import opened GoStrings
  import opened Chat

  /** A user record, as it is kept in memory and written to the users file. */
  datatype User = User(Name: string, Aliases: seq<string>, LastChatID: int64)

  /** The statically configured aliases. */
  const AliasTable: map<string, seq<string>> := map["lmegyesi" := ["megyesilaszlo", "laszlomegyesi"]]

  /** `aliases[name]`: the configured aliases, or none (Go's nil slice). */
  function AliasesOf(name: string): seq<string> {
    if name in AliasTable then AliasTable[name] else []
  }

  /**
   * What a data file holds, as far as decoding it goes: a user list, a queue
   * mapping, or a partial write that decodes as neither.
   */
  datatype Doc = UsersDoc(users: seq<User>) | QueuesDoc(queues: map<string, seq<string>>) | Truncated

  datatype StoreError =
    | OpenFailed(fn: string)
    | DecodeFailed(fn: string)
    | CreateFailed(fn: string)
    | EncodeFailed
    | CloseFailed(fn: string)
    | RenameFailed(from: string, to: string)
    | Locked(fn: string)

  /** Which steps of one `save` the operating system makes fail. */
  datatype SaveFaults = SaveFaults(create: bool, encode: bool, close: bool, rename: bool)

  /** The error `save` returns under `faults`: that of the first step that fails. */
  function SaveError(fn: string, faults: SaveFaults): (r: Option<StoreError>)
    ensures r.None? <==> !faults.create && !faults.encode && !faults.close && !faults.rename
  {
    if faults.create then Some(CreateFailed(fn + ".new"))
    else if faults.encode then Some(EncodeFailed)
    else if faults.close then Some(CloseFailed(fn + ".new"))
    else if faults.rename then Some(RenameFailed(fn + ".new", fn))
    else None
  }

  /** `f` is present in both maps with the same contents, or absent from both. */
  predicate AgreeOn<K, V(==)>(a: map<K, V>, b: map<K, V>, f: K) {
    (f in a <==> f in b) && (f in a ==> a[f] == b[f])
  }

  /** `load` of the users file: a missing file fails to open, anything but a user list fails to decode. */
  function ReadUsers(files: map<string, Doc>, fn: string): (r: Result<seq<User>, StoreError>)
    ensures r.Success? <==> fn in files && files[fn].UsersDoc?
    ensures r.Success? ==> r.value == files[fn].users
    ensures fn !in files ==> r == Failure(OpenFailed(fn))
  {
    if fn !in files then Failure(OpenFailed(fn))
    else match files[fn]
      case UsersDoc(us) => Success(us)
      case _ => Failure(DecodeFailed(fn))
  }

  /** `load` of the queues file. */
  function ReadQueues(files: map<string, Doc>, fn: string): (r: Result<map<string, seq<string>>, StoreError>)
    ensures r.Success? <==> fn in files && files[fn].QueuesDoc?
    ensures r.Success? ==> r.value == files[fn].queues
    ensures fn !in files ==> r == Failure(OpenFailed(fn))
  {
    if fn !in files then Failure(OpenFailed(fn))
    else match files[fn]
      case QueuesDoc(q) => Success(q)
      case _ => Failure(DecodeFailed(fn))
  }

  /** `queues[name]` of a queue mapping: the pending texts, none when the key is absent. */
  function Pending(q: map<string, seq<string>>, name: string): seq<string> {
    if name in q then q[name] else []
  }

  /** The queues a fresh store holds after Load: the file's, or none when it does not read. */
  function LoadedQueues(files: map<string, Doc>, fn: string): (r: map<string, seq<string>>)
    ensures fn in files && files[fn].QueuesDoc? ==> r == files[fn].queues
    ensures !(fn in files && files[fn].QueuesDoc?) ==> r == map[]
  {
    match ReadQueues(files, fn)
    case Success(q) => q
    case Failure(_) => map[]
  }

  /** The two data files and their temporary copies never coincide. */
  predicate DistinctFiles(usersFn: string, queuesFn: string) {
    usersFn != queuesFn && usersFn + ".new" != queuesFn && queuesFn + ".new" != usersFn
  }

  lemma DataFilesDistinct(path: string)
    ensures DistinctFiles(JoinPath(path, "users.json"), JoinPath(path, "queues.json"))
  {
    var u, q := JoinPath(path, "users.json"), JoinPath(path, "queues.json");
    JoinPathSuffix(path, "users.json");
    JoinPathSuffix(path, "queues.json");
    assert u[|u| - 9] == 's' && u[|u| - 1] == 'n';
    assert q[|q| - 9] == 'e' && q[|q| - 1] == 'n';
    assert (u + ".new")[|u| + 3] == 'w';
    assert (q + ".new")[|q| + 3] == 'w';
  }

  // ---------------------------------------------------------------------------
  // What Load computes

  /** The users with a non-empty name, in their original order. */
  function NonEmpty(us: seq<User>): (r: seq<User>)
    ensures |r| <= |us|
    ensures forall k :: 0 <= k < |r| ==> r[k].Name != ""
  {
    if us == [] then []
    else (if us[0].Name == "" then [] else [us[0]]) + NonEmpty(us[1..])
  }

  /** The number of users with an empty name. */
  function CountEmpty(us: seq<User>): nat {
    if us == [] then 0 else (if us[0].Name == "" then 1 else 0) + CountEmpty(us[1..])
  }

  lemma {:induction false} NonEmptyLength(us: seq<User>)
    ensures |NonEmpty(us)| + CountEmpty(us) == |us|
  {
    if us != [] {
      NonEmptyLength(us[1..]);
    }
  }

  lemma {:induction false} NonEmptyAppend(a: seq<User>, b: seq<User>)
    ensures NonEmpty(a + b) == NonEmpty(a) + NonEmpty(b)
  {
    if a == [] {
      assert a + b == b;
    } else {
      assert (a + b)[1..] == a[1..] + b;
      NonEmptyAppend(a[1..], b);
    }
  }

  /**
   * Load's drop loop, step by step: at index `i`, an empty-name user is
   * overwritten with the first user and the first element is sliced off;
   * `i` stays where it is (Go's `i--` undone by the loop's `i++`).
   */
  function Compact(s: seq<User>, i: nat): seq<User>
    decreases |s| - i
  {
    if i >= |s| then s
    else if s[i].Name == "" then Compact(s[i := s[0]][1..], i)
    else Compact(s, i + 1)
  }

  /** One drop step keeps everything after the dropped slot, one place earlier. */
  lemma DropStep(s: seq<User>, i: nat, t: seq<User>)
    requires i < |s| && t == s[i := s[0]][1..]
    ensures |t| == |s| - 1 && t[i..] == s[i + 1..]
  {
  }

  /** One drop step moves the first element into the dropped slot: the prefix is the same multiset. */
  lemma DropStepPrefix(s: seq<User>, i: nat, t: seq<User>)
    requires i < |s| && t == s[i := s[0]][1..]
    requires forall k :: 0 <= k < i ==> s[k].Name != ""
    ensures multiset(t[..i]) == multiset(s[..i])
    ensures forall k :: 0 <= k < i ==> t[k].Name != ""
  {
    if i > 0 {
      assert t[..i] == s[1..i] + [s[0]];
      assert s[..i] == [s[0]] + s[1..i];
      forall k | 0 <= k < i
        ensures t[k].Name != ""
      {
        if k < i - 1 {
          assert t[k] == s[k + 1];
        } else {
          assert t[k] == s[0];
        }
      }
    }
  }

  /** Splitting the first user off the front of a suffix. */
  lemma NonEmptyCons(s: seq<User>, i: nat)
    requires i < |s|
    ensures NonEmpty(s[i..]) == (if s[i].Name == "" then [] else [s[i]]) + NonEmpty(s[i + 1..])
  {
    assert s[i..][1..] == s[i + 1..];
  }

  /**
   * Compaction from index `i`, once everything before `i` is known to be kept,
   * keeps exactly the kept prefix and the non-empty users after it, as a multiset.
   */
  lemma {:induction false} CompactFrom(s: seq<User>, i: nat)
    requires i <= |s|
    requires forall k :: 0 <= k < i ==> s[k].Name != ""
    ensures multiset(Compact(s, i)) == multiset(s[..i]) + multiset(NonEmpty(s[i..]))
    decreases |s| - i, 1
  {
    if i == |s| {
      assert s[..i] == s;
    } else if s[i].Name == "" {
      var t := s[i := s[0]][1..];
      assert |t| == |s| - 1;
      DropStepPrefix(s, i, t);
      CompactFrom(t, i);
      CompactFromDrop(s, i, t);
    } else {
      CompactFromKeep(s, i);
    }
  }

  /** CompactFrom's step for a dropped user, given the claim for the list after the drop. */
  lemma CompactFromDrop(s: seq<User>, i: nat, t: seq<User>)
    requires i < |s| && s[i].Name == "" && t == s[i := s[0]][1..]
    requires multiset(t[..i]) == multiset(s[..i])
    requires multiset(Compact(t, i)) == multiset(t[..i]) + multiset(NonEmpty(t[i..]))
    ensures multiset(Compact(s, i)) == multiset(s[..i]) + multiset(NonEmpty(s[i..]))
  {
    DropStep(s, i, t);
    NonEmptyCons(s, i);
  }

  /** CompactFrom's step for a kept user, given the claim from the next index. */
  lemma {:induction false} CompactFromKeep(s: seq<User>, i: nat)
    requires i < |s| && s[i].Name != ""
    requires forall k :: 0 <= k < i ==> s[k].Name != ""
    ensures multiset(Compact(s, i)) == multiset(s[..i]) + multiset(NonEmpty(s[i..]))
    decreases |s| - i, 0
  {
    assert forall k :: 0 <= k < i + 1 ==> s[k].Name != "";
    CompactFrom(s, i + 1);
    assert Compact(s, i) == Compact(s, i + 1);
    NonEmptyCons(s, i);
    assert NonEmpty(s[i..]) == [s[i]] + NonEmpty(s[i + 1..]);
    assert s[..i + 1] == s[..i] + [s[i]];
    assert multiset(s[..i + 1]) == multiset(s[..i]) + multiset{s[i]};
  }

  /** Compaction from index `i` leaves no empty name, if there was none before `i`. */
  lemma {:induction false} CompactNoEmpty(s: seq<User>, i: nat)
    requires i <= |s|
    requires forall k :: 0 <= k < i ==> s[k].Name != ""
    ensures forall k :: 0 <= k < |Compact(s, i)| ==> Compact(s, i)[k].Name != ""
    decreases |s| - i
  {
    if i == |s| {
    } else if s[i].Name == "" {
      var t := s[i := s[0]][1..];
      DropStep(s, i, t);
      DropStepPrefix(s, i, t);
      CompactNoEmpty(t, i);
    } else {
      CompactNoEmpty(s, i + 1);
    }
  }

  /**
   * Load's drop loop leaves no empty name, removes exactly the empty-name
   * users, and keeps every other user (as a multiset: the order changes).
   */
  lemma CompactKeepsNonEmpty(s: seq<User>)
    ensures multiset(Compact(s, 0)) == multiset(NonEmpty(s))
    ensures |Compact(s, 0)| == |s| - CountEmpty(s)
    ensures forall k :: 0 <= k < |Compact(s, 0)| ==> Compact(s, 0)[k].Name != ""
  {
    CompactFrom(s, 0);
    CompactNoEmpty(s, 0);
    assert s[0..] == s;
    NonEmptyLength(s);
    assert |Compact(s, 0)| == |multiset(Compact(s, 0))|;
  }

  /** A user list without empty names loads back unchanged, in its order. */
  lemma {:induction false} CompactIdentity(s: seq<User>, i: nat)
    requires i <= |s|
    requires forall k :: 0 <= k < |s| ==> s[k].Name != ""
    ensures Compact(s, i) == s && NonEmpty(s[i..]) == s[i..]
    decreases |s| - i
  {
    if i < |s| {
      CompactIdentity(s, i + 1);
      NonEmptyCons(s, i);
    }
  }

  /**
   * Save then Load: a fresh store that loads both files just written reads
   * back the same queues and, when no user has an empty name, the same users
   * in the same order, each with its own record.
   */
  lemma SaveLoadRoundTrip(files: map<string, Doc>, usersFn: string, queuesFn: string,
                          us: seq<User>, q: map<string, seq<string>>)
    requires usersFn != queuesFn
    requires forall k :: 0 <= k < |us| ==> us[k].Name != ""
    ensures var saved := files[usersFn := UsersDoc(us)][queuesFn := QueuesDoc(q)];
      && ReadUsers(saved, usersFn) == Success(us) && ReadQueues(saved, queuesFn) == Success(q)
      && LoadedQueues(saved, queuesFn) == q
      && Compact(us, 0) == us && NonEmpty(us) == us
  {
    CompactIdentity(us, 0);
    assert us[0..] == us;
  }

  /** `user` answers to `name`: it is its name or one of its aliases. */
  predicate Claims(user: User, name: string) {
    name == user.Name || name in user.Aliases
  }

  /** The index of the last user that answers to `name`, or -1. */
  function LastClaim(us: seq<User>, name: string): (r: int)
    ensures -1 <= r < |us|
    ensures 0 <= r ==> Claims(us[r], name)
    ensures forall t :: r < t < |us| ==> !Claims(us[t], name)
  {
    if us == [] then -1
    else if Claims(us[|us| - 1], name) then |us| - 1
    else LastClaim(us[..|us| - 1], name)
  }

  /** The alias loop: every name in `names` is pointed at `p`, in order. */
  function IndexNames(m: map<string, Ptr>, names: seq<string>, p: Ptr): map<string, Ptr>
  {
    if names == [] then m
    else IndexNames(m, names[..|names| - 1], p)[names[|names| - 1] := p]
  }

  /** One user of the Load loop: its name, then its aliases, pointed at record `k`. */
  function IndexUser(m: map<string, Ptr>, u: User, k: nat): map<string, Ptr>
  {
    IndexNames(m[u.Name := Cell(k)], u.Aliases, Cell(k))
  }

  /** The Load loop over the kept users, the t-th getting record `base + t`. */
  function IndexUsers(m: map<string, Ptr>, us: seq<User>, base: nat): map<string, Ptr>
  {
    if us == [] then m
    else IndexUser(IndexUsers(m, us[..|us| - 1], base), us[|us| - 1], base + |us| - 1)
  }

  lemma {:induction false} IndexNamesLookup(m: map<string, Ptr>, names: seq<string>, p: Ptr, a: string)
    ensures a in names ==> a in IndexNames(m, names, p) && IndexNames(m, names, p)[a] == p
    ensures a !in names ==> AgreeOn(IndexNames(m, names, p), m, a)
  {
    if names != [] {
      var init := names[..|names| - 1];
      IndexNamesLookup(m, init, p, a);
      assert names == init + [names[|names| - 1]];
    }
  }

  /**
   * After the Load loop every name some kept user answers to points at the
   * record of the last such user; every other name keeps its old pointer.
   */
  lemma {:induction false} IndexUsersLookup(m: map<string, Ptr>, us: seq<User>, base: nat, a: string)
    ensures 0 <= LastClaim(us, a) ==>
      a in IndexUsers(m, us, base) && IndexUsers(m, us, base)[a] == Cell(base + LastClaim(us, a))
    ensures LastClaim(us, a) < 0 ==> AgreeOn(IndexUsers(m, us, base), m, a)
  {
    if us != [] {
      var init, u := us[..|us| - 1], us[|us| - 1];
      IndexUsersLookup(m, init, base, a);
      IndexNamesLookup(IndexUsers(m, init, base)[u.Name := Cell(base + |us| - 1)], u.Aliases, Cell(base + |us| - 1), a);
    }
  }

  /** Every pointer the Load loop adds is to one of the records it adds. */
  lemma IndexUsersRange(m: map<string, Ptr>, us: seq<User>, base: nat, a: string)
    requires a in IndexUsers(m, us, base)
    ensures || (a in m && IndexUsers(m, us, base)[a] == m[a])
            || (IndexUsers(m, us, base)[a].Cell? && base <= IndexUsers(m, us, base)[a].k < base + |us|)
  {
    IndexUsersLookup(m, us, base, a);
  }

  /**
   * A user no later user competes with has its name and all its aliases
   * resolving to one shared record.
   */
  lemma NamesShareOneRecord(m: map<string, Ptr>, us: seq<User>, base: nat, t: nat)
    requires t < |us|
    requires forall t', a :: t < t' < |us| && Claims(us[t], a) ==> !Claims(us[t'], a)
    ensures us[t].Name in IndexUsers(m, us, base) && IndexUsers(m, us, base)[us[t].Name] == Cell(base + t)
    ensures forall a :: a in us[t].Aliases ==> a in IndexUsers(m, us, base) && IndexUsers(m, us, base)[a] == Cell(base + t)
  {
    forall a | Claims(us[t], a)
      ensures a in IndexUsers(m, us, base) && IndexUsers(m, us, base)[a] == Cell(base + t)
    {
      IndexUsersLookup(m, us, base, a);
    }
  }

  /** The Load loop's invariant survives dropping an empty-name user at `i`. */
  lemma DropInvariant(s: seq<User>, i: nat, loaded: seq<User>, j: nat)
    requires i < |s| && j <= |loaded| && s[i..] == loaded[j..] && s[i].Name == ""
    requires Compact(s, i) == Compact(loaded, 0)
    ensures j < |loaded|
    ensures var t := s[i := s[0]][1..];
      && i <= |t| && t[i..] == loaded[j + 1..] && Compact(t, i) == Compact(loaded, 0)
    ensures NonEmpty(loaded[..j + 1]) == NonEmpty(loaded[..j])
  {
    assert s[i] == loaded[j];
    DropStep(s, i, s[i := s[0]][1..]);
    assert loaded[j..][1..] == loaded[j + 1..];
    assert loaded[..j + 1] == loaded[..j] + [s[i]];
    NonEmptyAppend(loaded[..j], [s[i]]);
  }

  /** Visiting a kept user at `i` moves both cursors on by one. */
  lemma KeepVisited(s: seq<User>, i: nat, loaded: seq<User>, j: nat)
    requires i < |s| && j <= |loaded| && s[i..] == loaded[j..] && s[i].Name != ""
    requires Compact(s, i) == Compact(loaded, 0)
    ensures j < |loaded| && loaded[j] == s[i]
    ensures s[i + 1..] == loaded[j + 1..] && Compact(s, i + 1) == Compact(loaded, 0)
  {
    assert s[i] == loaded[j];
    assert s[i..][1..] == s[i + 1..];
    assert loaded[j..][1..] == loaded[j + 1..];
  }

  /** Indexing the kept user `loaded[j]` extends the record list and the index by that user. */
  lemma KeepIndexed(loaded: seq<User>, j: nat, cells: seq<User>, m0: map<string, Ptr>, cs: seq<User>, um: map<string, Ptr>)
    requires j < |loaded| && loaded[j].Name != ""
    requires cs == cells + NonEmpty(loaded[..j])
    requires um == IndexUsers(m0, NonEmpty(loaded[..j]), |cells|)
    ensures cs + [loaded[j]] == cells + NonEmpty(loaded[..j + 1])
    ensures IndexUser(um, loaded[j], |cs|) == IndexUsers(m0, NonEmpty(loaded[..j + 1]), |cells|)
  {
    var pre, x := loaded[..j], loaded[j];
    assert loaded[..j + 1] == pre + [x];
    KeptOneMore(pre, x);
    KeepCell(cells, NonEmpty(pre), x);
    IndexUsersSnoc(m0, NonEmpty(pre), x, |cells|);
  }

  lemma KeepCell(cells: seq<User>, ne: seq<User>, x: User)
    ensures (cells + ne) + [x] == cells + (ne + [x]) && |cells + ne| == |cells| + |ne|
  {
  }

  lemma KeptOneMore(pre: seq<User>, x: User)
    requires x.Name != ""
    ensures NonEmpty(pre + [x]) == NonEmpty(pre) + [x]
  {
    NonEmptyAppend(pre, [x]);
    NonEmptyOne(x);
  }

  lemma NonEmptyOne(u: User)
    requires u.Name != ""
    ensures NonEmpty([u]) == [u]
  {
    assert [u][1..] == [];
  }

  /** Indexing one more user appends one step to the index. */
  lemma IndexUsersSnoc(m0: map<string, Ptr>, us: seq<User>, u: User, base: nat)
    ensures IndexUsers(m0, us + [u], base) == IndexUser(IndexUsers(m0, us, base), u, base + |us|)
  {
    var s := us + [u];
    assert s[..|s| - 1] == us;
  }

  // ---------------------------------------------------------------------------
  // The state

  /** A Go pointer to a user record: into the `users` slice, or to a record of its own. */
  datatype Ptr = Slot(i: nat) | Cell(k: nat)

  /** The file system: file contents by name, and the lock files currently held. */
  class FileSystem {
    var files: map<string, Doc>
    var locks: set<string>

    constructor (files: map<string, Doc>)
      ensures this.files == files && locks == {}
    {
      this.files, locks := files, {};
    }

    /** os.Remove, its error ignored. */
    method Remove(fn: string)
      modifies this
      ensures files == old(files) - {fn} && locks == old(locks)
    {
      files := files - {fn};
    }

    /** os.Rename of `from` onto `to`. */
    method Rename(from: string, to: string)
      requires from in files && from != to
      modifies this
      ensures files == (old(files) - {from})[to := old(files)[from]] && locks == old(locks)
    {
      files := (files - {from})[to := files[from]];
    }
  }

  /**
   * `save`: remove any old `fn.new`, create it, encode `doc` into it, close it,
   * and only then rename it onto `fn`.  A failing step returns its error at once.
   */
  method SaveFile(fs: FileSystem, fn: string, doc: Doc, faults: SaveFaults) returns (err: Option<StoreError>)
    modifies fs
    ensures err == SaveError(fn, faults)
    ensures err.None? ==> fs.files == (old(fs.files) - {fn + ".new"})[fn := doc]
    ensures err.Some? ==> AgreeOn(fs.files, old(fs.files), fn)
    ensures forall f :: f != fn && f != fn + ".new" ==> AgreeOn(fs.files, old(fs.files), f)
    ensures fs.locks == old(fs.locks)
  {
    var fnNew := fn + ".new";
    assert fnNew != fn by { assert |fnNew| == |fn| + 4; }
    fs.Remove(fnNew);
    if faults.create {
      return Some(CreateFailed(fnNew));
    }
    fs.files := fs.files[fnNew := Truncated];
    if faults.encode {
      return Some(EncodeFailed);
    }
    fs.files := fs.files[fnNew := doc];
    if faults.close {
      return Some(CloseFailed(fnNew));
    }
    if faults.rename {
      return Some(RenameFailed(fnNew, fn));
    }
    fs.Rename(fnNew, fn);
    assert fs.files == (old(fs.files) - {fnNew})[fn := doc];
    return None;
  }

  class DataPath {
    const usersFn: string
    const queuesFn: string
    /** The user list (Go's []User). */
    var users: seq<User>
    /** The offline queues: user name to pending texts. */
    var queues: map<string, seq<string>>
    /** Name or alias to a pointer to a user record. */
    var usersMap: map<string, Ptr>
    /** Records reachable only through `usersMap`, outside the `users` slice. */
    var cells: seq<User>

    predicate Points(p: Ptr)
      reads this`users, this`cells, this`usersMap
    {
      match p
      case Slot(i) => i < |users|
      case Cell(k) => k < |cells|
    }

    ghost predicate Valid()
      reads this`users, this`cells, this`usersMap
    {
      DistinctFiles(usersFn, queuesFn) && forall n | n in usersMap :: Points(usersMap[n])
    }

    /** The record a pointer refers to. */
    function Deref(p: Ptr): User
      reads this`users, this`cells, this`usersMap
      requires Points(p)
    {
      match p
      case Slot(i) => users[i]
      case Cell(k) => cells[k]
    }

    /** `usersMap[name]`, dereferenced; None for Go's nil. */
    function Lookup(name: string): (r: Option<User>)
      reads this`users, this`cells, this`usersMap
      requires Valid()
      ensures r.Some? <==> name in usersMap
    {
      if name in usersMap then Some(Deref(usersMap[name])) else None
    }

    /** The chat identifier a name resolves to, 0 when it resolves to nothing. */
    function ChatOf(name: string): int64
      reads this`users, this`cells, this`usersMap
      requires Valid()
    {
      match Lookup(name)
      case Some(u) => u.LastChatID
      case None => 0
    }

    /** `queues[name]`: the pending texts, none when the key is absent. */
    function Queue(name: string): seq<string>
      reads this`queues
    {
      Pending(queues, name)
    }

    constructor (path: string)
      ensures usersFn == JoinPath(path, "users.json") && queuesFn == JoinPath(path, "queues.json")
      ensures users == [] && queues == map[] && usersMap == map[] && cells == []
      ensures Valid()
    {
      usersFn := JoinPath(path, "users.json");
      queuesFn := JoinPath(path, "queues.json");
      users, queues, usersMap, cells := [], map[], map[], [];
      DataFilesDistinct(path);
    }

    /**
     * A new user: append it to `users` and point `usersMap[name]` at the new
     * slice element (`&data.users[len(data.users)-1]`).
     */
    method AddUser(u: User)
      requires Valid() && u.Name !in usersMap
      modifies this
      ensures Valid()
      ensures users == old(users) + [u] && usersMap == old(usersMap)[u.Name := Slot(|old(users)|)]
      ensures cells == old(cells) && queues == old(queues)
      ensures Lookup(u.Name) == Some(u)
      ensures forall n :: n != u.Name && n in usersMap ==> Lookup(n) == old(Lookup(n))
    {
      users := users + [u];
      usersMap := usersMap[u.Name := Slot(|users| - 1)];
    }

    /** `usersMap[name].LastChatID = id`: a write through the pointer. */
    method SetLastChatID(name: string, id: int64)
      requires Valid() && name in usersMap
      modifies this
      ensures Valid()
      ensures usersMap == old(usersMap) && queues == old(queues)
      ensures usersMap[name].Slot? ==>
        users == old(users)[usersMap[name].i := old(users)[usersMap[name].i].(LastChatID := id)] && cells == old(cells)
      ensures usersMap[name].Cell? ==>
        cells == old(cells)[usersMap[name].k := old(cells)[usersMap[name].k].(LastChatID := id)] && users == old(users)
      ensures var p := usersMap[name];
        && Deref(p) == old(Deref(p)).(LastChatID := id)
        && (forall q :: Points(q) && q != p ==> Deref(q) == old(Deref(q)))
    {
      match usersMap[name]
      case Slot(i) => users := users[i := users[i].(LastChatID := id)];
      case Cell(k) => cells := cells[k := cells[k].(LastChatID := id)];
    }

    /** The error Save returns: the users file's, else the queues file's. */
    function SaveErrorOf(usersFaults: SaveFaults, queuesFaults: SaveFaults): (r: Option<StoreError>)
      ensures r.None? <==> SaveError(usersFn, usersFaults).None? && SaveError(queuesFn, queuesFaults).None?
    {
      if SaveError(usersFn, usersFaults).Some? then SaveError(usersFn, usersFaults)
      else SaveError(queuesFn, queuesFaults)
    }

    /** Both data files hold the current users and queues. */
    predicate Persisted(fs: FileSystem)
      reads this, fs
    {
      && usersFn in fs.files && fs.files[usersFn] == UsersDoc(users)
      && queuesFn in fs.files && fs.files[queuesFn] == QueuesDoc(queues)
    }

    /**
     * Save: write both files, the users file first.  Both are attempted; the
     * users file's error wins over the queues file's.
     */
    method Save(fs: FileSystem, usersFaults: SaveFaults, queuesFaults: SaveFaults) returns (err: Option<StoreError>)
      requires Valid()
      modifies fs
      ensures err == SaveErrorOf(usersFaults, queuesFaults)
      ensures err.None? ==> Persisted(fs)
      ensures SaveError(usersFn, usersFaults).None? ==> usersFn in fs.files && fs.files[usersFn] == UsersDoc(users)
      ensures SaveError(usersFn, usersFaults).Some? ==> AgreeOn(fs.files, old(fs.files), usersFn)
      ensures SaveError(queuesFn, queuesFaults).None? ==> queuesFn in fs.files && fs.files[queuesFn] == QueuesDoc(queues)
      ensures SaveError(queuesFn, queuesFaults).Some? ==> AgreeOn(fs.files, old(fs.files), queuesFn)
      ensures forall f :: f != usersFn && f != usersFn + ".new" && f != queuesFn && f != queuesFn + ".new" ==>
        AgreeOn(fs.files, old(fs.files), f)
      ensures fs.locks == old(fs.locks)
    {
      err := SaveFile(fs, usersFn, UsersDoc(users), usersFaults);
      ghost var mid := fs.files;
      var qErr := SaveFile(fs, queuesFn, QueuesDoc(queues), queuesFaults);
      assert AgreeOn(fs.files, mid, usersFn);
      assert AgreeOn(mid, old(fs.files), queuesFn);
      forall f | f != usersFn && f != usersFn + ".new" && f != queuesFn && f != queuesFn + ".new"
        ensures AgreeOn(fs.files, old(fs.files), f)
      {
        assert AgreeOn(fs.files, mid, f) && AgreeOn(mid, old(fs.files), f);
      }
      if qErr.Some? && err.None? {
        err := qErr;
      }
    }

    /**
     * Load: read the users file and, only if that succeeded, drop the
     * empty-name users and index the others by name and alias; then read the
     * queues file whatever happened before.  The users file's error wins.
     * Each indexed user gets a record of its own (Go's `&u` of the loop's copy),
     * so `usersMap` never points into the `users` slice afterwards.
     */
    method Load(fs: FileSystem) returns (err: Option<StoreError>)
      requires Valid()
      requires forall n | n in usersMap :: usersMap[n].Cell?
      modifies this
      ensures Valid()
      ensures forall n | n in usersMap :: usersMap[n].Cell?
      ensures var ur := ReadUsers(fs.files, usersFn);
        && (ur.Success? ==>
              && users == Compact(ur.value, 0)
              && cells == old(cells) + NonEmpty(ur.value)
              && usersMap == IndexUsers(old(usersMap), NonEmpty(ur.value), |old(cells)|))
        && (ur.Failure? ==> users == old(users) && cells == old(cells) && usersMap == old(usersMap))
      ensures var qr := ReadQueues(fs.files, queuesFn);
        && (qr.Success? ==> queues == old(queues) + qr.value)
        && (qr.Failure? ==> queues == old(queues))
      ensures err == if ReadUsers(fs.files, usersFn).Failure? then Some(ReadUsers(fs.files, usersFn).error)
                     else if ReadQueues(fs.files, queuesFn).Failure? then Some(ReadQueues(fs.files, queuesFn).error)
                     else None
    {
      err := None;
      var ur := ReadUsers(fs.files, usersFn);
      if ur.Failure? {
        err := Some(ur.error);
      } else {
        ghost var m0, c0 := usersMap, cells;
        KeepUsers(ur.value);
        forall n | n in usersMap
          ensures usersMap[n].Cell? && usersMap[n].k < |cells|
        {
          IndexUsersRange(m0, NonEmpty(ur.value), |c0|, n);
        }
      }
      var qr := ReadQueues(fs.files, queuesFn);
      if qr.Success? {
        queues := queues + qr.value;
      } else if err.None? {
        err := Some(qr.error);
      }
    }

    /** The loop of Load over a freshly decoded user list. */
    method KeepUsers(loaded: seq<User>)
      modifies this
      ensures users == Compact(loaded, 0)
      ensures cells == old(cells) + NonEmpty(loaded)
      ensures usersMap == IndexUsers(old(usersMap), NonEmpty(loaded), |old(cells)|)
      ensures queues == old(queues)
    {
      users, cells, usersMap := CompactAndIndex(loaded, cells, usersMap);
    }
  }

  /**
   * Load's index loop on its own: drop the empty-name users with the
   * swap-with-first step, and give every kept user a record of its own
   * (appended to `cells`) that its name and aliases point at.
   */
  method CompactAndIndex(loaded: seq<User>, cells: seq<User>, usersMap: map<string, Ptr>)
      returns (us: seq<User>, cs: seq<User>, um: map<string, Ptr>)
    ensures us == Compact(loaded, 0)
    ensures cs == cells + NonEmpty(loaded)
    ensures um == IndexUsers(usersMap, NonEmpty(loaded), |cells|)
  {
    us, cs, um := loaded, cells, usersMap;
    ghost var j := 0;
    var i := 0;
    assert loaded[..0] == [];
    while i < |us|
      invariant LoadLoop(loaded, cells, usersMap, us, i, cs, um, j)
      decreases |loaded| - j
    {
      var u := us[i];
      if u.Name == "" {
        LoadLoopDrop(loaded, cells, usersMap, us, i, cs, um, j);
        us := us[i := us[0]];
        us := us[1..];
        j := j + 1;
        continue;
      }
      LoadLoopKeep(loaded, cells, usersMap, us, i, cs, um, j);
      var k := |cs|;
      cs := cs + [u];
      um := PointNames(um[u.Name := Cell(k)], u.Aliases, Cell(k));
      i := i + 1;
      j := j + 1;
    }
    assert loaded[j..] == us[i..] == [];
    assert loaded[..j] == loaded;
  }

  /**
   * The invariant of Load's loop: `us[i..]` is the part of the decoded list
   * not yet visited (from index `j`), compacting `us` from `i` still gives
   * the final list, and the first `j` decoded users are indexed.
   */
  ghost predicate LoadLoop(loaded: seq<User>, cells: seq<User>, m0: map<string, Ptr>,
                           us: seq<User>, i: nat, cs: seq<User>, um: map<string, Ptr>, j: nat)
  {
    && i <= |us| && i <= j <= |loaded|
    && us[i..] == loaded[j..]
    && Compact(us, i) == Compact(loaded, 0)
    && cs == cells + NonEmpty(loaded[..j])
    && um == IndexUsers(m0, NonEmpty(loaded[..j]), |cells|)
  }

  lemma LoadLoopDrop(loaded: seq<User>, cells: seq<User>, m0: map<string, Ptr>,
                     us: seq<User>, i: nat, cs: seq<User>, um: map<string, Ptr>, j: nat)
    requires LoadLoop(loaded, cells, m0, us, i, cs, um, j) && i < |us| && us[i].Name == ""
    ensures j < |loaded| && LoadLoop(loaded, cells, m0, us[i := us[0]][1..], i, cs, um, j + 1)
  {
    DropInvariant(us, i, loaded, j);
  }

  lemma LoadLoopKeep(loaded: seq<User>, cells: seq<User>, m0: map<string, Ptr>,
                     us: seq<User>, i: nat, cs: seq<User>, um: map<string, Ptr>, j: nat)
    requires LoadLoop(loaded, cells, m0, us, i, cs, um, j) && i < |us| && us[i].Name != ""
    ensures j < |loaded|
    ensures LoadLoop(loaded, cells, m0, us, i + 1, cs + [us[i]], IndexUser(um, us[i], |cs|), j + 1)
  {
    KeepVisited(us, i, loaded, j);
    KeepIndexed(loaded, j, cells, m0, cs, um);
  }

  /** The alias loop of Load: point every name in `names` at `p`. */
  method PointNames(m: map<string, Ptr>, names: seq<string>, p: Ptr) returns (r: map<string, Ptr>)
    ensures r == IndexNames(m, names, p)
  {
    r := m;
    var t := 0;
    while t < |names|
      invariant 0 <= t <= |names|
      invariant r == IndexNames(m, names[..t], p)
    {
      assert names[..t + 1] == names[..t] + [names[t]];
      r := r[names[t] := p];
      t := t + 1;
    }
    assert names[..t] == names;
  }

  /**
   * newDataPath: take the directory's lock file, then start from empty state
   * with the two data files under `path`.  A lock already held fails.
   */
  method NewDataPath(fs: FileSystem, path: string) returns (p: DataPath?, err: Option<StoreError>)
    modifies fs
    ensures fs.files == old(fs.files)
    ensures JoinPath(path, "tbot.lock") in old(fs.locks) ==>
      p == null && err == Some(Locked(JoinPath(path, "tbot.lock"))) && fs.locks == old(fs.locks)
    ensures JoinPath(path, "tbot.lock") !in old(fs.locks) ==>
      && p != null && fresh(p) && err.None? && p.Valid()
      && p.usersFn == JoinPath(path, "users.json") && p.queuesFn == JoinPath(path, "queues.json")
      && p.users == [] && p.queues == map[] && p.usersMap == map[] && p.cells == []
      && fs.locks == old(fs.locks) + {JoinPath(path, "tbot.lock")}
  {
    var lockFn := JoinPath(path, "tbot.lock");
    if lockFn in fs.locks {
      return null, Some(Locked(lockFn));
    }
    fs.locks := fs.locks + {lockFn};
    p := new DataPath(path);
    err := None;
  }
}
