/** Identity resolution of start and exec (cmd/start.go:237-287): a user reference
    is looked up in the host's user database and turned into a home directory and a
    credential. The OS user database is a value here. */
module Identity {
  import opened Base
  import opened Text

  /** A user.User: uid and gid as the database spells them, the result of GroupIds()
      (None when that call fails) and the home directory. */
  datatype Account = Account(uid: string, gid: string, groupIds: Option<seq<string>>, home: string)

  /** user.Lookup searches by name, user.LookupId by numeric id. */
  datatype UserDb = UserDb(byName: map<string, Account>, byId: map<int, Account>)

  /** syscall.Credential; each number is a uint32. */
  datatype Credential = Credential(uid: int, gid: int, groups: seq<int>)

  datatype UserInfo = UserInfo(home: string, credential: Credential)

  /** getUser: an empty reference means "root". */
  function UserRef(name: string): string {
    if name == "" then "root" else name
  }

  /** getUser: a reference that parses as an integer is a user id, any other a name. */
  function GetUser(db: UserDb, name: string): (r: Result<Account>)
    ensures ParseInt(UserRef(name)).Some? ==>
      var id := ParseInt(UserRef(name)).value;
      r == if id in db.byId then Ok(db.byId[id]) else Err(UnknownUserId(UserRef(name)))
    ensures ParseInt(UserRef(name)).None? ==>
      r == if UserRef(name) in db.byName then Ok(db.byName[UserRef(name)]) else Err(UnknownUser(UserRef(name)))
    ensures r.Ok? ==> r.value in db.byId.Values || r.value in db.byName.Values
  {
    var ref := UserRef(name);
    match ParseInt(ref)
    case Some(id) => if id in db.byId then Ok(db.byId[id]) else Err(UnknownUserId(ref))
    case None => if ref in db.byName then Ok(db.byName[ref]) else Err(UnknownUser(ref))
  }

  /** Resolving "" is resolving "root". */
  lemma EmptyUserIsRoot(db: UserDb)
    ensures GetUser(db, "") == GetUser(db, "root")
  {
  }

  /** The group ids that parse, converted to uint32, in order; the rest are dropped. */
  function ParsedGroupIds(ids: seq<string>): (r: seq<int>)
    ensures |r| <= |ids|
    ensures forall j :: 0 <= j < |r| ==> 0 <= r[j] < 0x1_0000_0000
    decreases |ids|
  {
    if ids == [] then []
    else
      var prior := ParsedGroupIds(ids[..|ids| - 1]);
      match ParseInt(ids[|ids| - 1])
      case Some(n) => prior + [Uint32(n)]
      case None => prior
  }

  /** Every group id kept comes from an id of the account that parses. */
  lemma {:induction false} ParsedGroupIdsSound(ids: seq<string>, j: int)
    requires 0 <= j < |ParsedGroupIds(ids)|
    ensures exists i :: 0 <= i < |ids| && ParseInt(ids[i]).Some? && ParsedGroupIds(ids)[j] == Uint32(ParseInt(ids[i]).value)
    decreases |ids|
  {
    var prefix := ids[..|ids| - 1];
    var prior := ParsedGroupIds(prefix);
    if j < |prior| {
      ParsedGroupIdsSound(prefix, j);
      var i :| 0 <= i < |prefix| && ParseInt(prefix[i]).Some? && prior[j] == Uint32(ParseInt(prefix[i]).value);
      assert ids[i] == prefix[i];
    } else {
      assert ParsedGroupIds(ids)[j] == Uint32(ParseInt(ids[|ids| - 1]).value);
    }
  }

  /** When every id parses, none is dropped and the order is kept. */
  lemma {:induction false} ParsedGroupIdsComplete(ids: seq<string>)
    requires forall i :: 0 <= i < |ids| ==> ParseInt(ids[i]).Some?
    ensures |ParsedGroupIds(ids)| == |ids|
    ensures forall i :: 0 <= i < |ids| ==> ParsedGroupIds(ids)[i] == Uint32(ParseInt(ids[i]).value)
    decreases |ids|
  {
    if ids != [] {
      var prefix := ids[..|ids| - 1];
      assert forall i :: 0 <= i < |prefix| ==> prefix[i] == ids[i];
      ParsedGroupIdsComplete(prefix);
    }
  }

  /** The kept group ids of a list are those of its parts, one after the other: an id
      that parses is kept in its place whatever the ids around it are. */
  lemma {:induction false} ParsedGroupIdsAppend(a: seq<string>, b: seq<string>)
    ensures ParsedGroupIds(a + b) == ParsedGroupIds(a) + ParsedGroupIds(b)
    decreases |b|
  {
    if b == [] {
      assert a + b == a;
    } else {
      var b' := b[..|b| - 1];
      assert (a + b)[..|a + b| - 1] == a + b';
      assert (a + b)[|a + b| - 1] == b[|b| - 1];
      ParsedGroupIdsAppend(a, b');
    }
  }

  /** One id is kept, as its uint32, exactly when it parses. */
  lemma ParsedGroupIdsSingle(id: string)
    ensures ParsedGroupIds([id]) == if ParseInt(id).Some? then [Uint32(ParseInt(id).value)] else []
  {
    assert [id][..0] == [];
  }

  /** The home directory and credential getUserInfo returns, or its error. */
  function ResolveIdentity(db: UserDb, name: string): (r: Result<UserInfo>)
    ensures r.Ok? <==> GetUser(db, name).Ok? && ParseInt(GetUser(db, name).value.uid).Some? && ParseInt(GetUser(db, name).value.gid).Some?
    ensures r.Ok? ==> r.value.home != ""
    ensures r.Ok? && GetUser(db, name).value.home != "" ==> r.value.home == GetUser(db, name).value.home
    ensures r.Ok? ==> 0 <= r.value.credential.uid < 0x1_0000_0000 && 0 <= r.value.credential.gid < 0x1_0000_0000
    ensures r.Ok? && GetUser(db, name).value.groupIds.None? ==> r.value.credential.groups == []
    ensures GetUser(db, name).Err? ==> r == Err(GetUser(db, name).error)
    ensures GetUser(db, name).Ok? ==>
      var a := GetUser(db, name).value;
      && (ParseInt(a.uid).None? ==> r == Err(Wrap("parse uid", BadNumber(a.uid))))
      && (ParseInt(a.uid).Some? && ParseInt(a.gid).None? ==> r == Err(Wrap("parse gid", BadNumber(a.gid))))
      && (r.Ok? ==>
            && r.value.home == (if a.home == "" then "/root" else a.home)
            && r.value.credential.uid == Uint32(ParseInt(a.uid).value)
            && r.value.credential.gid == Uint32(ParseInt(a.gid).value)
            && r.value.credential.groups == (if a.groupIds.Some? then ParsedGroupIds(a.groupIds.value) else []))
  {
    match GetUser(db, name)
    case Err(e) => Err(e)
    case Ok(a) =>
      match ParseInt(a.uid)
      case None => Err(Wrap("parse uid", BadNumber(a.uid)))
      case Some(uid) =>
        match ParseInt(a.gid)
        case None => Err(Wrap("parse gid", BadNumber(a.gid)))
        case Some(gid) =>
          var groups := if a.groupIds.Some? then ParsedGroupIds(a.groupIds.value) else [];
          Ok(UserInfo(if a.home == "" then "/root" else a.home, Credential(Uint32(uid), Uint32(gid), groups)))
  }

  /** A name that parses as an integer is only ever looked up by id. */
  lemma NumericNameById(db: UserDb, name: string, id: int)
    requires ParseInt(name) == Some(id)
    ensures ResolveIdentity(db, name).Ok? ==> id in db.byId
    ensures id !in db.byId ==> ResolveIdentity(db, name) == Err(UnknownUserId(name))
  {
  }

  /** The group-id loop of getUserInfo (cmd/start.go:253-262). */
  method ParseGroupIds(ids: seq<string>) returns (groups: seq<int>)
    ensures groups == ParsedGroupIds(ids)
  {
    groups := [];
    var i := 0;
    while i < |ids|
      invariant 0 <= i <= |ids|
      invariant groups == ParsedGroupIds(ids[..i])
    {
      assert ids[..i + 1][..i] == ids[..i];
      var parsed := ParseInt(ids[i]);
      if parsed.Some? {
        groups := groups + [Uint32(parsed.value)];
      }
      i := i + 1;
    }
    assert ids[..|ids|] == ids;
  }

  /** getUserInfo (cmd/start.go:237-274). */
  method GetUserInfo(db: UserDb, name: string) returns (r: Result<UserInfo>)
    ensures r == ResolveIdentity(db, name)
  {
    var user := GetUser(db, name);
    if user.Err? {
      return Err(user.error);
    }
    var a := user.value;
    var uid := ParseInt(a.uid);
    if uid.None? {
      return Err(Wrap("parse uid", BadNumber(a.uid)));
    }
    var gid := ParseInt(a.gid);
    if gid.None? {
      return Err(Wrap("parse gid", BadNumber(a.gid)));
    }
    var groups: seq<int> := [];
    if a.groupIds.Some? {
      groups := ParseGroupIds(a.groupIds.value);
    }
    var home := a.home;
    if home == "" {
      home := "/root";
    }
    r := Ok(UserInfo(home, Credential(Uint32(uid.value), Uint32(gid.value), groups)));
  }
}
