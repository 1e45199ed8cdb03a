/** p1's credential store (store.rs): the entries and, in a second document, the endpoint origins
    approved for them. Every write holds the store lock and publishes one document at a time,
    each whole or not at all; a publish may fail, and the process may stop right behind one. */
module CredentialStore {
  import opened Contracts

  datatype Entry = ApiKey(key: string) | Oauth(access: string)

  datatype StoreForm = ApiKeyForm | OauthForm | NoForm

  /** An approval as it is written: one origin as a string, several as an array. */
  datatype Meta = One(origin: string) | Many(origins: seq<string>)

  type Origins = map<string, Meta>
  type Document = map<string, Entry>

  datatype StoreError = Unreadable | MalformedOrigins | NotPublished | NothingToApprove | WrongForm | NotApproved

  /** How an operation ended; a process that stopped returns nothing. */
  datatype Ended<T> = Done(value: T) | Failed(error: StoreError) | Stopped

  function OriginsValue(approved: seq<string>): Meta {
    if |approved| == 1 then One(approved[0]) else Many(approved)
  }

  function RecordedOrigins(origins: Origins, route: string): seq<string> {
    if route !in origins then []
    else match origins[route]
      case One(origin) => [origin]
      case Many(many) => many
  }

  /** What `read_origins` accepts: no empty origin and no empty list. */
  predicate ReadableMeta(meta: Meta) {
    match meta
    case One(origin) => origin != ""
    case Many(many) => many != [] && forall o :: o in many ==> o != ""
  }

  predicate Readable(origins: Origins) {
    forall route :: route in origins ==> ReadableMeta(origins[route])
  }

  lemma WrittenApprovalReadsBack(origins: Origins, route: string, approved: seq<string>)
    ensures RecordedOrigins(origins[route := OriginsValue(approved)], route) == approved
    ensures approved != [] ==> (ReadableMeta(OriginsValue(approved)) <==> forall o :: o in approved ==> o != "")
  {
    if |approved| == 1 {
      assert approved == [approved[0]];
      assert approved[0] in approved;
    }
  }

  // ------------------------------------------------------------------ what was approved for what

  /** What the user did that reached the disk, in order. */
  datatype Act =
    | Stored(route: string, entry: Entry, approved: seq<string>)
    | Deleted(route: string)
    | Trusted(route: string, approved: seq<string>)

  /** The origins approved for the entry a route has now, or for its having none: those of the
      login that stored it, until they are replaced. */
  ghost function ApprovedNow(log: seq<Act>, route: string): set<string> {
    if log == [] then {}
    else
      var last := log[|log| - 1];
      if last.route != route then ApprovedNow(log[..|log| - 1], route)
      else match last
        case Stored(_, _, approved) => set o | o in approved
        case Deleted(_) => {}
        case Trusted(_, approved) => set o | o in approved
  }

  function StoredNow(log: seq<Act>, route: string): Option<Entry> {
    if log == [] then None
    else
      var last := log[|log| - 1];
      if last.route != route || last.Trusted? then StoredNow(log[..|log| - 1], route)
      else if last.Stored? then Some(last.entry) else None
  }

  lemma {:induction false} LogGrows(log: seq<Act>, act: Act, route: string)
    ensures ApprovedNow(log + [act], route) ==
            if act.route != route then ApprovedNow(log, route)
            else if act.Deleted? then {} else set o | o in act.approved
    ensures StoredNow(log + [act], route) ==
            if act.route != route || act.Trusted? then StoredNow(log, route)
            else if act.Stored? then Some(act.entry) else None
  {
    assert (log + [act])[..|log|] == log;
  }

  function EntryOf(document: Document, route: string, form: StoreForm): Result<Option<Entry>, StoreError> {
    if form.NoForm? || route !in document then Ok(None)
    else if form.ApiKeyForm? != document[route].ApiKey? then Err(WrongForm)
    else Ok(Some(document[route]))
  }

  class Store {
    var document: Document
    var origins: Origins
    /** The store's directory exists. */
    var hasDirectory: bool

    ghost var log: seq<Act>

    /** The entries are the ones the log left, and a recorded origin was approved for the entry
        that is there now. */
    ghost predicate Valid()
      reads this
    {
      && (forall route :: (if route in document then Some(document[route]) else None) == StoredNow(log, route))
      && (forall route, o :: o in RecordedOrigins(origins, route) ==> o in ApprovedNow(log, route))
      && (!hasDirectory ==> document == map[] && origins == map[])
    }

    constructor ()
      ensures Valid() && document == map[] && origins == map[] && log == []
    {
      document, origins, hasDirectory, log := map[], map[], false, [];
    }

    // ---------------------------------------------------------------- one publish

    /** The origins document is replaced, or not; `go` says whether the operation goes on. */
    method PublishOrigins(next: Origins, ghost act: Option<Act>) returns (go: bool)
      requires Valid()
      requires forall route, o :: o in RecordedOrigins(next, route) ==> o in ApprovedNow(Logged(log, act), route)
      requires hasDirectory && (act.Some? ==> act.value.Trusted?)
      modifies this`origins, this`log
      ensures Valid()
      ensures (origins == next && log == Logged(old(log), act)) || (!go && origins == old(origins) && log == old(log))
    {
      var published: bool := *;
      go := *;
      go := go && published;
      if published {
        origins := next;
        if act.Some? {
          forall route ensures StoredNow(Logged(log, act), route) == StoredNow(log, route) {
            LogGrows(log, act.value, route);
          }
        }
        log := Logged(log, act);
      }
    }

    /** The entries are replaced, or not; the route whose entry changes has no origin recorded. */
    method PublishDocument(next: Document, ghost act: Act) returns (go: bool)
      requires Valid() && hasDirectory && !act.Trusted? && RecordedOrigins(origins, act.route) == []
      requires next == if act.Stored? then document[act.route := act.entry] else document - {act.route}
      modifies this`document, this`log
      ensures Valid()
      ensures (document == next && log == old(log) + [act]) || (!go && document == old(document) && log == old(log))
    {
      var published: bool := *;
      go := *;
      go := go && published;
      if published {
        forall route ensures (if route in next then Some(next[route]) else None) == StoredNow(log + [act], route) {
          LogGrows(log, act, route);
        }
        forall route, o | o in RecordedOrigins(origins, route) ensures o in ApprovedNow(log + [act], route) {
          LogGrows(log, act, route);
        }
        document := next;
        log := log + [act];
      }
    }

    // ---------------------------------------------------------------- the operations

    /** `write_entry`: revoke, store, approve. Wherever it stops, the route's recorded origins
        are the old ones with the old entry, none, or the approved ones with the new entry. */
    method WriteEntry(route: string, entry: Entry, approved: seq<string>) returns (r: Ended<()>)
      requires Valid()
      modifies this
      ensures Valid()
      ensures forall other :: other != route ==>
                (other in document <==> other in old(document))
                  && (other in document ==> document[other] == old(document)[other])
                && RecordedOrigins(origins, other) == RecordedOrigins(old(origins), other)
      ensures r.Done? ==> route in document && document[route] == entry && RecordedOrigins(origins, route) == approved
      ensures r.Done? && approved != [] ==> (Readable(origins) <==> forall o :: o in approved ==> o != "")
      ensures r.Failed? && !r.error.NotPublished? ==> document == old(document) && origins == old(origins)
      ensures !r.Done? ==>
                || (document == old(document) && RecordedOrigins(origins,
                                                                 route) in [RecordedOrigins(old(origins), route), []])
                || (document == old(document)[route := entry] && RecordedOrigins(origins, route) in [[], approved])
    {
      var readable: bool := *;
      if !readable {
        return Failed(Unreadable);
      }
      hasDirectory := true;
      if !Readable(origins) {
        return Failed(MalformedOrigins);
      }
      var failed: bool := *;
      var stops := if failed then Failed(NotPublished) else Stopped;
      var revoked := origins - {route};
      var go := PublishOrigins(revoked, None);
      if !go {
        return stops;
      }
      go := PublishDocument(document[route := entry], Stored(route, entry, approved));
      if !go {
        return stops;
      }
      if approved != [] {
        WrittenApprovalReadsBack(revoked, route, approved);
        forall other, o | o in RecordedOrigins(revoked[route := OriginsValue(approved)], other)
          ensures o in ApprovedNow(log, other)
        {
          if other == route { LogGrows(log[..|log| - 1], log[|log| - 1], route); }
        }
        go := PublishOrigins(revoked[route := OriginsValue(approved)], None);
        if !go {
          return stops;
        }
      }
      return Done(());
    }

    /** `remove`: the approval goes before the entry it was for. */
    method Remove(route: string) returns (r: Ended<bool>)
      requires Valid()
      modifies this
      ensures Valid()
      ensures forall other :: other != route ==>
                (other in document <==> other in old(document))
                  && (other in document ==> document[other] == old(document)[other])
                && RecordedOrigins(origins, other) == RecordedOrigins(old(origins), other)
      ensures r.Done? ==> route !in document && RecordedOrigins(origins, route) == []
      ensures r.Done? ==> (r.value <==> route in old(document) || route in old(origins))
      ensures RecordedOrigins(origins, route) in [RecordedOrigins(old(origins), route), []]
      ensures route !in document && route in old(document) ==> RecordedOrigins(origins, route) == []
    {
      if !hasDirectory {
        return Done(false);
      }
      var readable: bool := *;
      if !readable {
        return Failed(Unreadable);
      }
      if !Readable(origins) {
        return Failed(MalformedOrigins);
      }
      var failed: bool := *;
      var stops := if failed then Failed(NotPublished) else Stopped;
      var originRemoved := route in origins;
      if originRemoved {
        var go := PublishOrigins(origins - {route}, None);
        if !go {
          return stops;
        }
      }
      // The entries are read behind that publish.
      readable := *;
      if !readable {
        return Failed(Unreadable);
      }
      var removed := route in document;
      if removed {
        var go := PublishDocument(document - {route}, Deleted(route));
        if !go {
          return stops;
        }
      }
      return Done(removed || originRemoved);
    }

    /** `trust_endpoints`: exactly these origins, for the entry that is there. */
    method TrustEndpoints(route: string, approved: seq<string>) returns (r: Ended<()>)
      requires Valid()
      modifies this
      ensures Valid() && document == old(document)
      ensures forall other :: other != route ==> RecordedOrigins(origins, other) == RecordedOrigins(old(origins), other)
      ensures r.Done? ==>
                approved != [] && RecordedOrigins(origins, route) == approved && ApprovedNow(log, route)
                == set o | o in approved
      ensures r.Failed? && r.error.NothingToApprove? <==> approved == []
      ensures !r.Done? ==> RecordedOrigins(origins, route) in [RecordedOrigins(old(origins), route), approved]
    {
      if approved == [] {
        return Failed(NothingToApprove);
      }
      hasDirectory := true;
      var readable: bool := *;
      if !readable {
        return Failed(Unreadable);
      }
      if !Readable(origins) {
        return Failed(MalformedOrigins);
      }
      var failed: bool := *;
      var next := origins[route := OriginsValue(approved)];
      ghost var act := Trusted(route, approved);
      WrittenApprovalReadsBack(origins, route, approved);
      forall other, o | o in RecordedOrigins(next, other) ensures o in ApprovedNow(log + [act], other) {
        LogGrows(log, act, other);
      }
      LogGrows(log, act, route);
      var go := PublishOrigins(next, Some(act));
      if !go {
        return if failed then Failed(NotPublished) else Stopped;
      }
      return Done(());
    }

    /** `check_origin`: a recorded origin, or none recorded where none is required. */
    method CheckOrigin(route: string, origin: Option<string>, required: bool) returns (r: Result<(), StoreError>)
      requires Valid()
      ensures r.Ok? && origin.Some? ==>
                Readable(origins)
                && (origin.value in RecordedOrigins(origins, route)
                  || (RecordedOrigins(origins, route) == [] && !required))
      ensures r.Err? ==> origin.Some?
      ensures r.Err? && r.error.NotApproved? ==>
                origin.value !in RecordedOrigins(origins, route) && (RecordedOrigins(origins, route) != [] || required)
    {
      if origin.None? {
        return Ok(());
      }
      var readable: bool := *;
      if !readable {
        return Err(Unreadable);
      }
      if !Readable(origins) {
        return Err(MalformedOrigins);
      }
      var recorded := RecordedOrigins(origins, route);
      if origin.value in recorded || (recorded == [] && !required) {
        return Ok(());
      }
      return Err(NotApproved);
    }

    /** `read_bound_entry`: with a required origin, the entry comes only when that origin is recorded,
        and so was approved for this very entry. */
    method ReadBoundEntry(route: string, form: StoreForm, origin: Option<string>, required: bool)
      returns (r: Result<Option<Entry>, StoreError>)
      requires Valid()
      ensures r.Ok? && r.value.Some? ==> StoredNow(log, route) == r.value && !form.NoForm?
      ensures r.Ok? && r.value.Some? && origin.Some? && required ==>
                origin.value in RecordedOrigins(origins, route) && origin.value in ApprovedNow(log, route)
      ensures r.Ok? && r.value.Some? && origin.Some? && RecordedOrigins(origins, route) != [] ==>
                origin.value in RecordedOrigins(origins, route)
    {
      if origin.Some? {
        if !hasDirectory {
          return Ok(None);
        }
        var checked := CheckOrigin(route, origin, required);
        if checked.Err? {
          return Err(checked.error);
        }
      }
      var readable: bool := *;
      if !readable {
        return Err(Unreadable);
      }
      r := EntryOf(document, route, form);
    }
  }

  ghost function Logged(log: seq<Act>, act: Option<Act>): seq<Act> {
    if act.Some? then log + [act.value] else log
  }

  // ------------------------------------------------------------------ any sequence of operations

  datatype Operation =
    | Login(route: string, entry: Entry, approved: seq<string>)
    | Logout(route: string)
    | Approval(route: string, approved: seq<string>)

  /** However logins, logouts and approvals follow each other, and wherever each of them stops, a
      recorded origin was approved for the entry now stored. */
  method AnySequence(operations: seq<Operation>) returns (store: Store)
    ensures fresh(store) && store.Valid()
    ensures forall route, o :: o in RecordedOrigins(store.origins, route) ==> o in ApprovedNow(store.log, route)
  {
    store := new Store();
    for i := 0 to |operations|
      invariant fresh(store) && store.Valid()
    {
      match operations[i] {
        case Login(route, entry, approved) => var r := store.WriteEntry(route, entry, approved);
        case Logout(route) => var r := store.Remove(route);
        case Approval(route, approved) => var r := store.TrustEndpoints(route, approved);
      }
    }
  }

  /** An approval never outlives its entry: once another entry is stored for the route, or none,
      only what was approved since counts. */
  lemma {:induction false} ApprovalsAreNotInherited(log: seq<Act>, i: nat, route: string, origin: string)
    requires i < |log| && log[i].route == route && !log[i].Trusted?
    requires origin in ApprovedNow(log, route)
    ensures exists j :: i <= j < |log| && log[j].route == route && !log[j].Deleted? && origin in log[j].approved
                        && forall k :: j < k < |log| ==> log[k].route != route
  {
    var m := |log| - 1;
    if log[m].route == route {
      assert !log[m].Deleted?;
    } else {
      ApprovalsAreNotInherited(log[..m], i, route, origin);
    }
  }
}
