/** The table of ledger files: queries, their pages, and the stores seen. */
module LedgerBoard {
  import opened Options
  import opened Json
  import opened LedgerModel
  import opened LedgerSession

  datatype QueryCall = QueryCall(version: nat, scope: Option<Text>, batch: nat, page: Option<Cursor>)

  datatype Board = Board(
    version: nat, rows: seq<Item>, stores: set<Text>, scope: Option<Text>,
    cursors: map<nat, Option<Cursor>>, batch: nat, nextCursor: Option<Cursor>,
    querying: bool, queryError: Option<Code>, calls: map<Id, Request<QueryCall>>, next: Id)

  /** A new epoch outdates every query. */
  function OutdateBoard(b: Board): Board { b.(version := b.version + 1, querying := false) }

  function ForgetBoard(b: Board): Board {
    b.(rows := [], stores := {}, scope := None, cursors := map[0 := None], batch := 0, nextCursor := None)
  }

  function StartQuery(ss: Session, b: Board, scope: Option<Text>, batch: nat): Board {
    var version := b.version + 1;
    var page := if batch != 0 && batch in b.cursors then b.cursors[batch] else None;
    b.(version := version, querying := true, queryError := None,
       calls := File(ss, b.next, b.calls, QueryCall(version, scope, batch, page)), next := b.next + 1)
  }

  /** Whether the answer of this call may still change the board. */
  predicate Wanted(ss: Session, b: Board, id: Id)
    requires id in b.calls
  {
    b.calls[id].call.version == b.version && b.calls[id].epoch == ss.epoch
  }

  function EndQuery(b: Board, version: nat): Board {
    if version == b.version then b.(querying := false) else b
  }

  function QueryArrives(ss: Session, b: Board, id: Id, rows: seq<Item>, nextCursor: Option<Cursor>): Board
    requires id in b.calls
  {
    var c := b.calls[id].call;
    var t := b.(calls := b.calls - {id});
    var u :=
      if !Wanted(ss, b, id) then t
      else
        var kept := if c.batch == 0 then map[0 := None] else b.cursors;
        t.(scope := c.scope, batch := c.batch, cursors := kept[c.batch + 1 := nextCursor], rows := rows,
           nextCursor := nextCursor, stores := b.stores + set i | i in rows :: i.key.storeName);
    EndQuery(u, c.version)
  }

  /** The failure of query `call`, after `call` itself has seen the code. */
  function QueryFails(ss: Session, b: Board, r: Request<QueryCall>, code: Code): Board {
    var t := if r.call.version == b.version && r.epoch == ss.epoch then b.(queryError := Some(code)) else b;
    EndQuery(t, r.call.version)
  }

  /** The newest version is of the current epoch, and the board shows itself as
      querying exactly while the call with that version is in flight. */
  ghost predicate BoardOk(ss: Session, b: Board) {
    && Dated(ss, b.next, b.calls)
    && (forall i | i in b.calls ::
          b.calls[i].call.version <= b.version
            && (b.calls[i].call.version == b.version ==> b.calls[i].epoch == ss.epoch))
    && (forall i, j | i in b.calls && j in b.calls && b.calls[i].call.version == b.calls[j].call.version :: i == j)
    && (b.querying <==> exists i | i in b.calls :: b.calls[i].call.version == b.version)
  }

  lemma OutdateBoardOk(ss: Session, t: Session, b: Board)
    requires BoardOk(ss, b) && t.epoch > ss.epoch
    ensures BoardOk(t, OutdateBoard(b))
  {
  }

  lemma StartQueryOk(ss: Session, b: Board, scope: Option<Text>, batch: nat)
    requires BoardOk(ss, b) && SignedIn(ss)
    ensures BoardOk(ss, StartQuery(ss, b, scope, batch))
  {
    var t := StartQuery(ss, b, scope, batch);
    assert b.next in t.calls && t.calls[b.next].call.version == t.version;
  }

  lemma QueryArrivesOk(ss: Session, b: Board, id: Id, rows: seq<Item>, nextCursor: Option<Cursor>)
    requires BoardOk(ss, b) && id in b.calls
    ensures BoardOk(ss, QueryArrives(ss, b, id, rows, nextCursor))
  {
    var t := QueryArrives(ss, b, id, rows, nextCursor);
    assert forall i | i in t.calls :: i in b.calls && t.calls[i] == b.calls[i];
    if b.querying && b.calls[id].call.version != b.version {
      var i :| i in b.calls && b.calls[i].call.version == b.version;
      assert i in t.calls && t.calls[i].call.version == t.version;
    }
  }

  lemma QueryFailsOk(ss: Session, b: Board, id: Id, code: Code)
    requires BoardOk(ss, b) && id in b.calls
    ensures BoardOk(ss, QueryFails(ss, b.(calls := b.calls - {id}), b.calls[id], code))
  {
    var t := QueryFails(ss, b.(calls := b.calls - {id}), b.calls[id], code);
    assert forall i | i in t.calls :: i in b.calls && t.calls[i] == b.calls[i];
    if b.querying && b.calls[id].call.version != b.version {
      var i :| i in b.calls && b.calls[i].call.version == b.version;
      assert i in t.calls && t.calls[i].call.version == t.version;
    }
  }

  lemma BoardMoved(ss: Session, t: Session, b: Board)
    requires BoardOk(ss, b) && Moved(ss, t)
    ensures BoardOk(t, b) && BoardOk(t, ForgetBoard(b))
  {
  }
}
