/** The store the manager talks to. Real backends are outside this model;
    `Store` is a reference in-memory store that meets the interface's
    contract: create, fetch and delete by ID, fetch and delete by user key.
    Its `fault` field stands for a backend that fails: while it is set,
    every call returns that error and changes nothing. */
module Stores {
  import opened Wrappers
  import opened Sessions

  /** A call that changes the store, as the manager made it. */
  datatype Call =
    | CreateCall(s: Session)
    | DeleteByIDCall(id: string)
    | DeleteByUserKeyCall(key: string, except: seq<string>)

  /** What `FetchByID` returns: the session, whether it was found, and an
      error. */
  datatype FetchReply = FetchReply(session: Session, ok: bool, err: Option<Error>)

  /** The index of the first session whose ID is `id`. */
  function FirstIndex(ss: seq<Session>, id: string): (k: Option<nat>)
    ensures k.Some? ==> k.value < |ss| && ss[k.value].id == id
    ensures k.Some? ==> forall j :: 0 <= j < k.value ==> ss[j].id != id
    ensures k.None? ==> forall j :: 0 <= j < |ss| ==> ss[j].id != id
    decreases |ss|
  {
    if ss == [] then None
    else if ss[0].id == id then Some(0)
    else match FirstIndex(ss[1..], id)
      case Some(k) => Some(k + 1)
      case None => None
  }

  /** The first row whose ID is `id`. */
  function Lookup(rows: seq<Session>, id: string): (r: Option<Session>)
    ensures r.Some? ==> r.value in rows && r.value.id == id
    ensures r.None? <==> forall s :: s in rows ==> s.id != id
  {
    match FirstIndex(rows, id)
    case Some(k) => Some(rows[k])
    case None => None
  }

  /** The rows that satisfy `keep`, in their order. */
  function Filter(rows: seq<Session>, keep: Session -> bool): (r: seq<Session>)
    ensures |r| <= |rows|
    ensures forall s :: s in r <==> s in rows && keep(s)
    decreases |rows|
  {
    if rows == [] then []
    else (if keep(rows[0]) then [rows[0]] else []) + Filter(rows[1..], keep)
  }

  /** A session added after `rows` is the one found by its ID, provided
      no earlier row had that ID. */
  lemma LookupAppended(rows: seq<Session>, s: Session)
    requires Lookup(rows, s.id).None?
    ensures Lookup(rows + [s], s.id) == Some(s)
  {
  }

  class Store {
    var rows: seq<Session>
    var fault: Option<Error>
    ghost var calls: seq<Call>

    constructor (rows: seq<Session>, fault: Option<Error>)
      ensures this.rows == rows && this.fault == fault && calls == []
    {
      this.rows := rows;
      this.fault := fault;
      calls := [];
    }

    /** `FetchByID`: the session with this ID, if the store holds one. */
    function FetchByID(id: string): (rep: FetchReply)
      reads this
      ensures rep.err == fault
      ensures rep.ok <==> fault.None? && exists s :: s in rows && s.id == id
      ensures rep.ok ==> rep.session in rows && rep.session.id == id
    {
      if fault.Some? then FetchReply(ZeroSession, false, fault)
      else match Lookup(rows, id)
        case Some(s) => FetchReply(s, true, None)
        case None => FetchReply(ZeroSession, false, None)
    }

    /** `FetchByUserKey`: every session of `key`, or nil when it has none. */
    function FetchByUserKey(key: string): (res: (Option<seq<Session>>, Option<Error>))
      reads this
      ensures res.1 == fault
      ensures fault.Some? ==> res.0.None?
      ensures res.0.Some? ==> res.0.value != []
      ensures res.0.Some? ==> forall s :: s in res.0.value <==> s in rows && s.userKey == key
      ensures fault.None? && res.0.None? ==> forall s :: s in rows ==> s.userKey != key
    {
      if fault.Some? then (None, fault)
      else
        var mine := Filter(rows, (s: Session) => s.userKey == key);
        if mine == [] then (None, None) else (Some(mine), None)
    }

    /** `Create`: insert a session. */
    method Create(s: Session) returns (err: Option<Error>)
      modifies this
      ensures calls == old(calls) + [CreateCall(s)]
      ensures err == fault == old(fault)
      ensures rows == if err.None? then old(rows) + [s] else old(rows)
    {
      calls := calls + [CreateCall(s)];
      err := fault;
      if err.None? {
        rows := rows + [s];
      }
    }

    /** `DeleteByID`: remove the session with this ID; deleting an ID the
        store does not hold is not an error. */
    method DeleteByID(id: string) returns (err: Option<Error>)
      modifies this
      ensures calls == old(calls) + [DeleteByIDCall(id)]
      ensures err == fault == old(fault)
      ensures rows == if err.None? then Filter(old(rows), (s: Session) => s.id != id) else old(rows)
    {
      calls := calls + [DeleteByIDCall(id)];
      err := fault;
      if err.None? {
        rows := Filter(rows, (s: Session) => s.id != id);
      }
    }

    /** `DeleteByUserKey`: remove every session of `key` whose ID is not
        in `except`. */
    method DeleteByUserKey(key: string, except: seq<string>) returns (err: Option<Error>)
      modifies this
      ensures calls == old(calls) + [DeleteByUserKeyCall(key, except)]
      ensures err == fault == old(fault)
      ensures rows == if err.None? then Filter(old(rows), (s: Session) => s.userKey != key || s.id in except) else old(rows)
    {
      calls := calls + [DeleteByUserKeyCall(key, except)];
      err := fault;
      if err.None? {
        rows := Filter(rows, (s: Session) => s.userKey != key || s.id in except);
      }
    }
  }
}
