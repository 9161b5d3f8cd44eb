/** The credential vault both brokers embed (adapters/repositories/broker.go:103-148, 231-245, 367-395): secrets by
    handle, helper files on disk, and the revoke that removes both. */
module Vaults {
  import opened Base
  import opened Shell

  datatype Secret = Secret(token: string, expires: nat, helper: Option<string>)

  /** A helper file is named by its directory and handle; `helper` above is the directory. */
  datatype State = State(secrets: map<string, Secret>, files: set<(string, string)>, now: nat)

  function PathOf(dir: string, handle: string): string {
    dir + "/git-credentials-" + handle
  }

  datatype Helper = UnknownHandle | CredentialExpired | NoHelper | Written(config: string) | DiskError

  /** What became of writing the file: written, not opened, or opened and then not written or not closed. */
  datatype Disk = Fine | NotOpened | NotFinished

  datatype Revoked = NothingThere | Removed | FileStuck

  predicate Spendable(s: State, handle: string) {
    handle in s.secrets && s.secrets[handle].expires > s.now
  }

  /** retain. */
  function Retained(s: State, handle: string, secret: Secret): State {
    s.(secrets := s.secrets[handle := secret])
  }

  /** writeHelper. A file left unfinished stays on disk, and its path is not recorded. */
  function Helped(s: State, handle: string, dir: string, disk: Disk): (State, Helper) {
    if handle !in s.secrets then (s, UnknownHandle)
    else if s.secrets[handle].expires <= s.now then (s, CredentialExpired)
    else if s.secrets[handle].token == "" then (s, NoHelper)
    else
      var onDisk := s.(files := s.files + {(dir, handle)});
      match disk
      case NotOpened => (s, DiskError)
      case NotFinished => (onDisk, DiskError)
      case Fine =>
        (onDisk.(secrets := s.secrets[handle := s.secrets[handle].(helper := Some(dir))]),
         Written(HelperConfig(PathOf(dir, handle))))
  }

  /** revoke. The secret goes first; then its helper file, if that can be removed. */
  function RevokedFrom(s: State, handle: string, removable: bool): (State, Revoked) {
    if handle !in s.secrets then (s, NothingThere)
    else
      var gone := s.(secrets := s.secrets - {handle});
      match s.secrets[handle].helper
      case None => (gone, Removed)
      case Some(dir) =>
        if removable then (gone.(files := s.files - {(dir, handle)}), Removed) else (gone, FileStuck)
  }

  class CredentialVault {
    var secrets: map<string, Secret>
    var files: set<(string, string)>
    var now: nat

    constructor ()
      ensures View() == State(map[], {}, 0)
    {
      secrets, files, now := map[], {}, 0;
    }

    function View(): State
      reads this
    {
      State(secrets, files, now)
    }

    method Retain(handle: string, secret: Secret)
      modifies this`secrets
      ensures View() == Retained(old(View()), handle, secret)
    {
      secrets := secrets[handle := secret];
    }

    /** Fails closed for an unknown, a revoked and an expired handle, and writes nothing without a token. */
    method WriteHelper(handle: string, dir: string, disk: Disk) returns (r: Helper)
      modifies this`secrets, this`files
      ensures (View(), r) == Helped(old(View()), handle, dir, disk)
      ensures r.UnknownHandle? <==> handle !in old(secrets)
      ensures r.CredentialExpired? <==> handle in old(secrets) && old(secrets)[handle].expires <= now
      ensures r.NoHelper? <==> handle in old(secrets) && old(secrets)[handle].expires > now
                               && old(secrets)[handle].token == ""
      ensures r.Written? ==> disk.Fine? && files == old(files) + {(dir, handle)}
                             && secrets == old(secrets)[handle := old(secrets)[handle].(helper := Some(dir))]
      ensures r.DiskError? ==> !disk.Fine? && secrets == old(secrets)
                               && files == if disk.NotFinished? then old(files) + {(dir, handle)} else old(files)
      ensures !r.Written? && !r.DiskError? ==> secrets == old(secrets) && files == old(files)
    {
      if handle !in secrets { return UnknownHandle; }
      var sec := secrets[handle];
      if !(sec.expires > now) { return CredentialExpired; }
      if sec.token == "" { return NoHelper; }
      if disk.NotOpened? { return DiskError; }
      files := files + {(dir, handle)};
      if disk.NotFinished? { return DiskError; }
      secrets := secrets[handle := sec.(helper := Some(dir))];
      return Written(HelperConfig(PathOf(dir, handle)));
    }

    method Revoke(handle: string, removable: bool) returns (r: Revoked)
      modifies this`secrets, this`files
      ensures (View(), r) == RevokedFrom(old(View()), handle, removable)
      ensures secrets == old(secrets) - {handle}
      ensures r.NothingThere? <==> handle !in old(secrets)
      ensures r.FileStuck? <==> handle in old(secrets) && old(secrets)[handle].helper.Some? && !removable
      ensures files == if handle in old(secrets) && old(secrets)[handle].helper.Some? && removable
                       then old(files) - {(old(secrets)[handle].helper.value, handle)} else old(files)
    {
      if handle !in secrets { return NothingThere; }
      var sec := secrets[handle];
      secrets := secrets - {handle};
      if sec.helper.Some? {
        if !removable { return FileStuck; }
        files := files - {(sec.helper.value, handle)};
      }
      return Removed;
    }
  }

  /** Two handles never share a file. */
  lemma PathsDiffer(dir: string, a: string, b: string)
    requires PathOf(dir, a) == PathOf(dir, b)
    ensures a == b
  {
    var n := |dir + "/git-credentials-"|;
    assert PathOf(dir, a)[n..] == a && PathOf(dir, b)[n..] == b;
  }

  // --- what is on disk -----------------------------------------------------------------------

  /** Every helper file on disk is the one its live handle points at. */
  predicate NoStray(s: State) {
    forall f :: f in s.files ==> f.1 in s.secrets && s.secrets[f.1].helper == Some(f.0)
  }

  /** After a revoke the handle is spent: nothing of it answers, and it answers nothing again. */
  lemma RevokedIsSpent(s: State, handle: string, removable: bool, dir: string, disk: Disk)
    ensures var (u, _) := RevokedFrom(s, handle, removable);
      && !Spendable(u, handle) && Helped(u, handle, dir, disk) == (u, UnknownHandle)
      && RevokedFrom(u, handle, removable) == (u, NothingThere)
  {
  }

  /** With no stray file before it, a revoke leaves none of the handle's files and no stray file, exactly
      when it is not stuck. */
  lemma RevokeCleans(s: State, handle: string, removable: bool)
    requires NoStray(s)
    ensures var (u, r) := RevokedFrom(s, handle, removable);
      && (NoStray(u) <==> (r.FileStuck? ==> (s.secrets[handle].helper.value, handle) !in s.files))
      && (!r.FileStuck? ==> forall f :: f in u.files ==> f.1 != handle)
  {
    var (u, r) := RevokedFrom(s, handle, removable);
    if r.FileStuck? {
      var f := (s.secrets[handle].helper.value, handle);
      assert f in s.files ==> f in u.files && f.1 !in u.secrets;
    }
  }

  /** A helper written for a handle that already has one elsewhere leaves the first file behind, where no
      revoke will look; one written where the first is, or for a handle with none, does not. */
  lemma SecondHelperStrays(s: State, handle: string, dir: string)
    requires NoStray(s) && Spendable(s, handle) && s.secrets[handle].token != ""
    ensures NoStray(Helped(s, handle, dir, Fine).0)
            <==> forall f :: f in s.files && f.1 == handle ==> f.0 == dir
  {
    var u := Helped(s, handle, dir, Fine).0;
    if f :| f in s.files && f.1 == handle && f.0 != dir {
      assert f in u.files && u.secrets[f.1].helper != Some(f.0);
    }
  }

  /** One left unfinished is where no revoke will look, unless the handle's helper was there before. */
  lemma UnfinishedStrays(s: State, handle: string, dir: string)
    requires NoStray(s) && Spendable(s, handle) && s.secrets[handle].token != ""
    ensures NoStray(Helped(s, handle, dir, NotFinished).0) <==> s.secrets[handle].helper == Some(dir)
  {
    assert (dir, handle) in Helped(s, handle, dir, NotFinished).0.files;
  }

  // --- every use of the vault ----------------------------------------------------------------

  /** Handles are random and used once; a secret is retained before it has a helper. */
  datatype Op =
    | Mint(handle: string, token: string, expires: nat)
    | Help(handle: string, dir: string, disk: Disk)
    | Revoke(handle: string, removable: bool)
    | Wait(d: nat)

  predicate Can(s: State, op: Op) {
    op.Mint? ==> op.handle !in s.secrets
  }

  function Do(s: State, op: Op): State {
    match op
    case Mint(handle, token, expires) => Retained(s, handle, Secret(token, expires, None))
    case Help(handle, dir, disk) => Helped(s, handle, dir, disk).0
    case Revoke(handle, removable) => RevokedFrom(s, handle, removable).0
    case Wait(d) => s.(now := s.now + d)
  }

  /** The operations that leave a file no revoke will find: a helper written while the handle's file is in
      another place, one left unfinished where none is recorded, and a revoke that cannot remove a file. */
  predicate Strays(s: State, op: Op) {
    match op
    case Help(handle, dir, disk) =>
      && Spendable(s, handle) && s.secrets[handle].token != ""
      && ((disk.Fine? && exists f :: f in s.files && f.1 == handle && f.0 != dir)
          || (disk.NotFinished? && s.secrets[handle].helper != Some(dir)))
    case Revoke(handle, removable) =>
      && handle in s.secrets && s.secrets[handle].helper.Some? && !removable
      && (s.secrets[handle].helper.value, handle) in s.files
    case _ => false
  }

  lemma StraysExactly(s: State, op: Op)
    requires NoStray(s) && Can(s, op)
    ensures NoStray(Do(s, op)) <==> !Strays(s, op)
  {
    match op
    case Help(handle, dir, disk) =>
      if Spendable(s, handle) && s.secrets[handle].token != "" {
        SecondHelperStrays(s, handle, dir);
        UnfinishedStrays(s, handle, dir);
      }
    case Revoke(handle, removable) => RevokeCleans(s, handle, removable);
    case _ =>
  }

  ghost predicate Run(trace: seq<State>, ops: seq<Op>) {
    |trace| == |ops| + 1 && trace[0].secrets == map[] && trace[0].files == {}
    && forall k :: 0 <= k < |ops| ==> Can(trace[k], ops[k]) && trace[k + 1] == Do(trace[k], ops[k])
  }

  /** In every run of mints, helpers, revokes and waits without such an operation, whatever is on disk belongs
      to a live handle: revoking every handle empties the disk. */
  lemma {:induction false} DiskIsAccounted(trace: seq<State>, ops: seq<Op>, k: nat)
    requires Run(trace, ops) && k < |trace|
    requires forall j :: 0 <= j < k ==> !Strays(trace[j], ops[j])
    ensures NoStray(trace[k])
    ensures trace[k].secrets == map[] ==> trace[k].files == {}
  {
    if k > 0 {
      DiskIsAccounted(trace, ops, k - 1);
      StraysExactly(trace[k - 1], ops[k - 1]);
    }
    if trace[k].secrets == map[] {
      forall f ensures f !in trace[k].files { }
    }
  }

  /** The configuration handed to Git reads as the helper and the file's path, whole. */
  lemma HelperNamesFile(s: State, handle: string, dir: string, helper: string, option: string)
    requires Helped(s, handle, dir, Fine).1.Written? && helper == "store" && option == "--file="
    ensures Words(Helped(s, handle, dir, Fine).1.config) == Some([helper, option + PathOf(dir, handle)])
  {
    HelperIsTwoWords(PathOf(dir, handle), helper, option);
  }
}
