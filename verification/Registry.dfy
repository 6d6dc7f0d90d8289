/**
 The node registry: the nodes table and the app_config table (db/models.go) under
 the handlers of api/node.go.

 SQLite and GORM are foreign code. Their contract: a lookup fails only when no
 row matches, Delete removes the rows that match, Save updates the row with the
 same primary key or inserts one, and fails, changing nothing, exactly when the
 unique index on non-empty pub_key values would be violated.
 */
module RegistrySpec {
  import opened Wrappers

  type Time = int

  datatype Node = Node(
    dir: string, pubKey: string, alias: string, nodePublic: bool, externalIP: string,
    restCors: string, rpcListen: string, restListen: string, lastOpened: Time)

  const LAST_PUBKEY := "last_node_pubkey"
  const LAST_DIR := "last_node_dir"

  datatype Store = Store(rows: seq<Node>, config: map<string, string>)

  // ------------------------------------------------------------- the table

  function ByDir(rows: seq<Node>, dir: string): Option<Node> {
    if rows == [] then None
    else if rows[0].dir == dir then Some(rows[0])
    else ByDir(rows[1..], dir)
  }

  function ByKey(rows: seq<Node>, key: string): Option<Node> {
    if rows == [] then None
    else if rows[0].pubKey == key then Some(rows[0])
    else ByKey(rows[1..], key)
  }

  /** The first row of another directory that carries the key. */
  function Elsewhere(rows: seq<Node>, key: string, dir: string): Option<Node> {
    if rows == [] then None
    else if rows[0].pubKey == key && rows[0].dir != dir then Some(rows[0])
    else Elsewhere(rows[1..], key, dir)
  }

  function Delete(rows: seq<Node>, dir: string): seq<Node> {
    if rows == [] then []
    else (if rows[0].dir == dir then [] else [rows[0]]) + Delete(rows[1..], dir)
  }

  function Upsert(rows: seq<Node>, node: Node): seq<Node> {
    if rows == [] then [node]
    else if rows[0].dir == node.dir then [node] + rows[1..]
    else [rows[0]] + Upsert(rows[1..], node)
  }

  /** Save on a table with the unique index. */
  function Save(rows: seq<Node>, node: Node): Option<seq<Node>> {
    if node.pubKey != "" && Elsewhere(rows, node.pubKey, node.dir).Some? then None
    else Some(Upsert(rows, node))
  }

  ghost predicate OneRowPerDir(rows: seq<Node>) {
    forall i, j :: 0 <= i < j < |rows| ==> rows[i].dir != rows[j].dir
  }

  ghost predicate KeysUnique(rows: seq<Node>) {
    forall i, j :: 0 <= i < j < |rows| && rows[i].pubKey == rows[j].pubKey ==> rows[i].pubKey == ""
  }

  ghost predicate Valid(rows: seq<Node>) {
    OneRowPerDir(rows) && KeysUnique(rows)
  }

  // ---------------------------------------------------------- the handlers

  datatype Request = Request(
    pubKey: string, dir: string, alias: string, nodePublic: bool, externalIP: string,
    restCors: string, rpcListen: string, restListen: string)

  datatype Op =
    | SaveConfig(req: Request, now: Time)
    | PatchIdentity(dir: string, pubKey: string, alias: string, now: Time)
    | Remove(dir: string)

  function Pick(mine: string, theirs: string): string {
    if mine == "" then theirs else mine
  }

  /** The row a save writes, given the stale row of a moved node and the row that
      is already at the directory. */
  function SavedRow(req: Request, stale: Option<Node>, existing: Option<Node>, now: Time): Node {
    var key := if req.pubKey == "" && existing.Some? then existing.value.pubKey else req.pubKey;
    if stale.None? then
      Node(req.dir, key, req.alias, req.nodePublic, req.externalIP, req.restCors, req.rpcListen, req.restListen, now)
    else
      var o := stale.value;
      Node(req.dir, key, Pick(req.alias, o.alias), req.nodePublic || o.nodePublic, Pick(req.externalIP, o.externalIP),
           Pick(req.restCors, o.restCors), Pick(req.rpcListen, o.rpcListen), Pick(req.restListen, o.restListen), now)
  }

  /** A request that takes over what it left empty. */
  function Inherits(req: Request, o: Node): Request {
    Request(req.pubKey, req.dir, Pick(req.alias, o.alias), req.nodePublic || o.nodePublic,
            Pick(req.externalIP, o.externalIP), Pick(req.restCors, o.restCors),
            Pick(req.rpcListen, o.rpcListen), Pick(req.restListen, o.restListen))
  }

  function StaleRow(rows: seq<Node>, req: Request): Option<Node> {
    if req.pubKey == "" then None else Elsewhere(rows, req.pubKey, req.dir)
  }

  /** The transaction of a save; None when it fails and is rolled back. */
  function SaveTransaction(s: Store, req: Request, now: Time): Option<Store> {
    var stale := StaleRow(s.rows, req);
    var kept := if stale.Some? then Delete(s.rows, stale.value.dir) else s.rows;
    var saved := Save(kept, SavedRow(req, stale, ByDir(kept, req.dir), now));
    if saved.None? then None
    else Some(Store(saved.value,
                    if req.pubKey == "" then s.config[LAST_DIR := req.dir]
                    else s.config[LAST_DIR := req.dir][LAST_PUBKEY := req.pubKey]))
  }

  /** The row an identity patch writes: the existing one, or a public default. */
  function PatchedRow(rows: seq<Node>, dir: string, pubKey: string, alias: string, now: Time): Node {
    var n := if ByDir(rows, dir).Some? then ByDir(rows, dir).value
             else Node(dir, "", "", true, "", "", "", "", 0);
    n.(pubKey := Pick(pubKey, n.pubKey), alias := Pick(alias, n.alias), lastOpened := now)
  }

  function Patch(s: Store, dir: string, pubKey: string, alias: string, now: Time): Option<Store> {
    var saved := Save(s.rows, PatchedRow(s.rows, dir, pubKey, alias, now));
    if saved.None? then None
    else Some(Store(saved.value, if pubKey == "" then s.config else s.config[LAST_PUBKEY := pubKey]))
  }

  /** What an operation leaves; a failed one leaves everything as it was. */
  function Apply(s: Store, op: Op): Store {
    match op
    case SaveConfig(req, now) => SaveTransaction(s, req, now).GetOr(s)
    case PatchIdentity(dir, key, alias, now) => Patch(s, dir, key, alias, now).GetOr(s)
    case Remove(dir) => s.(rows := Delete(s.rows, dir))
  }

  function Run(s: Store, ops: seq<Op>): Store
    decreases |ops|
  {
    if ops == [] then s else Run(Apply(s, ops[0]), ops[1..])
  }

  // ------------------------------------------------ what the table operations do

  lemma {:induction false} ByDirFinds(rows: seq<Node>, dir: string)
    ensures ByDir(rows, dir).Some? ==> ByDir(rows, dir).value in rows && ByDir(rows, dir).value.dir == dir
    ensures ByDir(rows, dir).None? <==> forall n :: n in rows ==> n.dir != dir
  {
    if rows != [] {
      ByDirFinds(rows[1..], dir);
      assert forall n :: n in rows <==> n == rows[0] || n in rows[1..];
    }
  }

  lemma {:induction false} ByKeyFinds(rows: seq<Node>, key: string)
    ensures ByKey(rows, key).Some? ==> ByKey(rows, key).value in rows && ByKey(rows, key).value.pubKey == key
    ensures ByKey(rows, key).None? <==> forall n :: n in rows ==> n.pubKey != key
  {
    if rows != [] {
      ByKeyFinds(rows[1..], key);
      assert forall n :: n in rows <==> n == rows[0] || n in rows[1..];
    }
  }

  lemma {:induction false} ElsewhereFinds(rows: seq<Node>, key: string, dir: string)
    ensures Elsewhere(rows, key, dir).Some? ==>
              var n := Elsewhere(rows, key, dir).value; n in rows && n.pubKey == key && n.dir != dir
    ensures Elsewhere(rows, key, dir).None? <==> forall n :: n in rows && n.pubKey == key ==> n.dir == dir
  {
    if rows != [] {
      ElsewhereFinds(rows[1..], key, dir);
      assert forall n :: n in rows <==> n == rows[0] || n in rows[1..];
    }
  }

  lemma {:induction false} DeleteKeeps(rows: seq<Node>, dir: string)
    requires Valid(rows)
    ensures Valid(Delete(rows, dir))
    ensures forall n :: n in Delete(rows, dir) <==> n in rows && n.dir != dir
  {
    if rows != [] {
      DeleteKeeps(rows[1..], dir);
      assert forall n :: n in rows <==> n == rows[0] || n in rows[1..];
      var rest := Delete(rows[1..], dir);
      forall j | 0 <= j < |rest|
        ensures rest[j].dir != rows[0].dir && (rest[j].pubKey == rows[0].pubKey ==> rows[0].pubKey == "")
      {
        assert rest[j] in rest;
      }
    }
  }

  lemma {:induction false} UpsertMembers(rows: seq<Node>, node: Node)
    requires OneRowPerDir(rows)
    ensures forall n :: n in Upsert(rows, node) <==> n == node || (n in rows && n.dir != node.dir)
  {
    if rows != [] {
      assert forall n :: n in rows <==> n == rows[0] || n in rows[1..];
      assert forall n :: n in rows[1..] ==> n.dir != rows[0].dir;
      if rows[0].dir != node.dir {
        UpsertMembers(rows[1..], node);
      }
    }
  }

  lemma {:induction false} UpsertOneRow(rows: seq<Node>, node: Node)
    requires OneRowPerDir(rows)
    ensures OneRowPerDir(Upsert(rows, node))
    ensures forall n :: n in Upsert(rows, node) ==> n == node || n in rows
  {
    if rows != [] && rows[0].dir != node.dir {
      UpsertOneRow(rows[1..], node);
      var rest := Upsert(rows[1..], node);
      forall j | 0 <= j < |rest| ensures rest[j].dir != rows[0].dir && (rest[j] == node || rest[j] in rows) {
        assert rest[j] in rest;
      }
    }
  }

  lemma {:induction false} UpsertKeys(rows: seq<Node>, node: Node)
    requires Valid(rows)
    requires node.pubKey != "" ==> forall n :: n in rows && n.pubKey == node.pubKey ==> n.dir == node.dir
    ensures KeysUnique(Upsert(rows, node))
  {
    if rows != [] {
      var more := rows[1..];
      assert forall i :: 0 <= i < |more| ==> more[i] == rows[i + 1];
      if rows[0].dir == node.dir {
        assert forall i :: 0 <= i < |more| ==> more[i] in rows;
      } else {
        UpsertKeys(more, node);
        UpsertMembers(more, node);
        KeysBelowHead(rows, node, Upsert(more, node));
      }
    }
  }

  lemma KeysBelowHead(rows: seq<Node>, node: Node, rest: seq<Node>)
    requires rows != [] && KeysUnique(rows) && KeysUnique(rest) && rows[0].dir != node.dir
    requires node.pubKey != "" ==> forall n :: n in rows && n.pubKey == node.pubKey ==> n.dir == node.dir
    requires forall n :: n in rest ==> n == node || n in rows[1..]
    ensures KeysUnique([rows[0]] + rest)
  {
    forall j | 0 <= j < |rest| && rest[j].pubKey == rows[0].pubKey ensures rows[0].pubKey == "" {
      assert rest[j] in rest && rows[0] in rows;
    }
  }

  lemma UpsertKeeps(rows: seq<Node>, node: Node)
    requires Valid(rows)
    requires node.pubKey != "" ==> forall n :: n in rows && n.pubKey == node.pubKey ==> n.dir == node.dir
    ensures Valid(Upsert(rows, node))
    ensures forall n :: n in Upsert(rows, node) <==> n == node || (n in rows && n.dir != node.dir)
  {
    UpsertMembers(rows, node);
    UpsertOneRow(rows, node);
    UpsertKeys(rows, node);
  }

  lemma RowOfDir(rows: seq<Node>, n: Node)
    requires OneRowPerDir(rows) && n in rows
    ensures ByDir(rows, n.dir) == Some(n)
  {
    ByDirFinds(rows, n.dir);
  }

  lemma RowOfKey(rows: seq<Node>, n: Node)
    requires KeysUnique(rows) && n in rows && n.pubKey != ""
    ensures ByKey(rows, n.pubKey) == Some(n)
  {
    ByKeyFinds(rows, n.pubKey);
  }

  // ------------------------------------------------------------------ saves

  /** From a sound table a save never violates the unique index and keeps the
      table sound. */
  lemma SaveSucceeds(s: Store, req: Request, now: Time)
    requires Valid(s.rows)
    ensures SaveTransaction(s, req, now).Some?
    ensures Valid(SaveTransaction(s, req, now).value.rows)
    ensures var row := SavedRow(req, StaleRow(s.rows, req), ByDir(s.rows, req.dir), now);
            forall n :: n in SaveTransaction(s, req, now).value.rows <==>
              n == row || (n in s.rows && n.dir != req.dir && (req.pubKey == "" || n.pubKey != req.pubKey))
  {
    var stale := StaleRow(s.rows, req);
    ElsewhereFinds(s.rows, req.pubKey, req.dir);
    var kept := if stale.Some? then Delete(s.rows, stale.value.dir) else s.rows;
    if stale.Some? {
      DeleteKeeps(s.rows, stale.value.dir);
    }
    KeptRows(s.rows, req, kept);
    var row := SavedRow(req, stale, ByDir(kept, req.dir), now);
    ElsewhereFinds(kept, row.pubKey, req.dir);
    SavedKeyFits(kept, req, row);
    UpsertKeeps(kept, row);
  }

  /** Deleting the stale row removes exactly the other rows with the key. */
  lemma KeptRows(rows: seq<Node>, req: Request, kept: seq<Node>)
    requires Valid(rows)
    requires kept == if StaleRow(rows, req).Some? then Delete(rows, StaleRow(rows, req).value.dir) else rows
    ensures Valid(kept) && ByDir(kept, req.dir) == ByDir(rows, req.dir)
    ensures forall n :: n in kept <==> n in rows && (req.pubKey == "" || n.pubKey != req.pubKey || n.dir == req.dir)
  {
    var stale := StaleRow(rows, req);
    ElsewhereFinds(rows, req.pubKey, req.dir);
    if stale.Some? {
      DeleteKeeps(rows, stale.value.dir);
      assert forall n :: n in rows && n.pubKey == req.pubKey ==> n == stale.value;
    }
    ByDirFinds(rows, req.dir);
    ByDirFinds(kept, req.dir);
    if ByDir(rows, req.dir).Some? {
      RowOfDir(kept, ByDir(rows, req.dir).value);
    }
  }

  lemma SavedKeyFits(kept: seq<Node>, req: Request, row: Node)
    requires Valid(kept) && row.dir == req.dir
    requires req.pubKey != "" ==>
               row.pubKey == req.pubKey && forall n :: n in kept && n.pubKey == req.pubKey ==> n.dir == req.dir
    requires req.pubKey == "" ==>
               row.pubKey == "" || (ByDir(kept, req.dir).Some? && row.pubKey == ByDir(kept, req.dir).value.pubKey)
    ensures row.pubKey != "" ==> forall n :: n in kept && n.pubKey == row.pubKey ==> n.dir == row.dir
  {
    ByDirFinds(kept, req.dir);
  }

  /** A moved node: its key is afterwards only at the new directory, the stale row
      is gone, and every setting the request left empty comes from it. */
  lemma SaveMovesNode(s: Store, req: Request, now: Time, stale: Node)
    requires Valid(s.rows) && req.pubKey != ""
    requires stale in s.rows && stale.pubKey == req.pubKey && stale.dir != req.dir
    ensures SaveTransaction(s, req, now).Some?
    ensures var rows := SaveTransaction(s, req, now).value.rows;
            && ByDir(rows, stale.dir).None?
            && (forall n :: n in rows && n.pubKey == req.pubKey ==> n.dir == req.dir)
            && ByDir(rows, req.dir) ==
               Some(Node(req.dir, req.pubKey,
                         if req.alias == "" then stale.alias else req.alias,
                         req.nodePublic || stale.nodePublic,
                         if req.externalIP == "" then stale.externalIP else req.externalIP,
                         if req.restCors == "" then stale.restCors else req.restCors,
                         if req.rpcListen == "" then stale.rpcListen else req.rpcListen,
                         if req.restListen == "" then stale.restListen else req.restListen, now))
  {
    SaveSucceeds(s, req, now);
    ElsewhereFinds(s.rows, req.pubKey, req.dir);
    var found := StaleRow(s.rows, req).value;
    assert found == stale;
    var rows := SaveTransaction(s, req, now).value.rows;
    var row := SavedRow(req, StaleRow(s.rows, req), ByDir(s.rows, req.dir), now);
    RowOfDir(rows, row);
    ByDirFinds(rows, stale.dir);
    RowsOfDir(s.rows, stale);
  }

  lemma RowsOfDir(rows: seq<Node>, n: Node)
    requires OneRowPerDir(rows) && n in rows
    ensures forall m :: m in rows && m.dir == n.dir ==> m == n
  {
  }

  /** The key a plain save leaves at its directory: the request's, or else the one
      the directory had, or else none. */
  function KeyAfterSave(rows: seq<Node>, req: Request): string {
    if req.pubKey != "" then req.pubKey
    else if ByDir(rows, req.dir).Some? then ByDir(rows, req.dir).value.pubKey
    else ""
  }

  /** A plain save, of a node that has not moved, stores the request field by field,
      and remembers the directory, and the key if there is one. */
  lemma PlainSaveStoresRequest(s: Store, req: Request, now: Time)
    requires Valid(s.rows)
    requires req.pubKey == "" || forall n :: n in s.rows && n.pubKey == req.pubKey ==> n.dir == req.dir
    ensures SaveTransaction(s, req, now).Some?
    ensures var s' := SaveTransaction(s, req, now).value;
            var row := ByDir(s'.rows, req.dir);
            && row.Some? && row.value.dir == req.dir && row.value.lastOpened == now
            && row.value.alias == req.alias && row.value.nodePublic == req.nodePublic
            && row.value.externalIP == req.externalIP && row.value.restCors == req.restCors
            && row.value.rpcListen == req.rpcListen && row.value.restListen == req.restListen
            && row.value.pubKey == KeyAfterSave(s.rows, req)
            && (forall n :: n in s'.rows && n.dir != req.dir <==> n in s.rows && n.dir != req.dir)
            && s'.config == if req.pubKey == "" then s.config["last_node_dir" := req.dir]
                            else s.config["last_node_dir" := req.dir]["last_node_pubkey" := req.pubKey]
  {
    SaveSucceeds(s, req, now);
    ElsewhereFinds(s.rows, req.pubKey, req.dir);
    var s' := SaveTransaction(s, req, now).value;
    RowOfDir(s'.rows, SavedRow(req, StaleRow(s.rows, req), ByDir(s.rows, req.dir), now));
  }

  /** No other directory carries the request's key. */
  ghost predicate HasNotMoved(rows: seq<Node>, req: Request) {
    req.pubKey == "" || forall n :: n in rows && n.pubKey == req.pubKey ==> n.dir == req.dir
  }

  /** The row holds the request's settings and the time. */
  predicate StoresFields(row: Option<Node>, req: Request, now: Time) {
    && row.Some? && row.value.lastOpened == now
    && row.value.alias == req.alias && row.value.nodePublic == req.nodePublic
    && row.value.externalIP == req.externalIP && row.value.restCors == req.restCors
    && row.value.rpcListen == req.rpcListen && row.value.restListen == req.restListen
  }

  lemma PlainSaveIfUnmoved(s: Store, req: Request, now: Time)
    requires Valid(s.rows)
    ensures HasNotMoved(s.rows, req) ==>
              var row := ByDir(Apply(s, SaveConfig(req, now)).rows, req.dir);
              StoresFields(row, req, now) && row.value.pubKey == KeyAfterSave(s.rows, req)
  {
    if HasNotMoved(s.rows, req) {
      PlainSaveStoresRequest(s, req, now);
    }
  }

  /** A save without a key keeps the key its directory already had. */
  lemma SaveKeepsKnownKey(s: Store, req: Request, now: Time, existing: Node)
    requires Valid(s.rows) && req.pubKey == "" && existing in s.rows && existing.dir == req.dir
    ensures SaveTransaction(s, req, now).Some?
    ensures var row := ByDir(SaveTransaction(s, req, now).value.rows, req.dir);
            row.Some? && row.value.pubKey == existing.pubKey
  {
    SaveSucceeds(s, req, now);
    RowOfDir(s.rows, existing);
    var row := SavedRow(req, StaleRow(s.rows, req), ByDir(s.rows, req.dir), now);
    RowOfDir(SaveTransaction(s, req, now).value.rows, row);
  }

  // ---------------------------------------------------------------- patches

  /** An identity patch fails exactly when another directory holds the key it
      brings; otherwise it keeps the table sound and touches only its row. */
  lemma PatchFailsIffKeyElsewhere(s: Store, dir: string, pubKey: string, alias: string, now: Time)
    requires Valid(s.rows)
    ensures Patch(s, dir, pubKey, alias, now).None? <==>
            pubKey != "" && exists n :: n in s.rows && n.pubKey == pubKey && n.dir != dir
    ensures Patch(s, dir, pubKey, alias, now).Some? ==>
              var rows := Patch(s, dir, pubKey, alias, now).value.rows;
              var row := PatchedRow(s.rows, dir, pubKey, alias, now);
              && Valid(rows) && ByDir(rows, dir) == Some(row)
              && forall n :: n in rows <==> n == row || (n in s.rows && n.dir != dir)
  {
    var row := PatchedRow(s.rows, dir, pubKey, alias, now);
    ByDirFinds(s.rows, dir);
    ElsewhereFinds(s.rows, row.pubKey, dir);
    if Patch(s, dir, pubKey, alias, now).Some? {
      UpsertKeeps(s.rows, row);
      RowOfDir(Upsert(s.rows, row), row);
    }
  }

  /** A patch writes the key and the alias it brings and the time, and keeps every
      other field of the row; a row it has to make is public and otherwise empty. */
  lemma PatchStoresIdentity(s: Store, dir: string, pubKey: string, alias: string, now: Time)
    requires Valid(s.rows) && Patch(s, dir, pubKey, alias, now).Some?
    ensures var was, row := ByDir(s.rows, dir), ByDir(Patch(s, dir, pubKey, alias, now).value.rows, dir);
            && row.Some? && row.value.dir == dir && row.value.lastOpened == now
            && (pubKey != "" ==> row.value.pubKey == pubKey)
            && (alias != "" ==> row.value.alias == alias)
            && (was.Some? ==>
                  && (pubKey == "" ==> row.value.pubKey == was.value.pubKey)
                  && (alias == "" ==> row.value.alias == was.value.alias)
                  && row.value.nodePublic == was.value.nodePublic && row.value.externalIP == was.value.externalIP
                  && row.value.restCors == was.value.restCors
                  && row.value.rpcListen == was.value.rpcListen && row.value.restListen == was.value.restListen)
            && (was.None? ==>
                  && row.value.pubKey == pubKey && row.value.alias == alias && row.value.nodePublic
                  && row.value.externalIP == "" && row.value.restCors == ""
                  && row.value.rpcListen == "" && row.value.restListen == "")
    ensures Patch(s, dir, pubKey, alias, now).value.config ==
            if pubKey == "" then s.config else s.config["last_node_pubkey" := pubKey]
  {
    PatchFailsIffKeyElsewhere(s, dir, pubKey, alias, now);
    ByDirFinds(s.rows, dir);
  }

  // ------------------------------------------------------------- every run

  lemma ApplyKeepsValid(s: Store, op: Op)
    requires Valid(s.rows)
    ensures Valid(Apply(s, op).rows)
  {
    match op
    case SaveConfig(req, now) => SaveSucceeds(s, req, now);
    case PatchIdentity(dir, key, alias, now) => PatchFailsIffKeyElsewhere(s, dir, key, alias, now);
    case Remove(dir) => DeleteKeeps(s.rows, dir);
  }

  /** Every sequence of operations keeps one row per directory and non-empty keys
      unique. */
  lemma {:induction false} RunKeepsValid(s: Store, ops: seq<Op>)
    requires Valid(s.rows)
    ensures Valid(Run(s, ops).rows)
    decreases |ops|
  {
    if ops != [] {
      ApplyKeepsValid(s, ops[0]);
      RunKeepsValid(Apply(s, ops[0]), ops[1..]);
    }
  }

  // -------------------------------------------------------------- get-last

  function Lookup(config: map<string, string>, key: string): string {
    if key in config then config[key] else ""
  }

  /** The first two tiers of get-last: the remembered key, then the remembered
      directory. */
  function LastByMemory(s: Store): Option<Node> {
    var key, dir := Lookup(s.config, LAST_PUBKEY), Lookup(s.config, LAST_DIR);
    if key != "" && ByKey(s.rows, key).Some? then ByKey(s.rows, key)
    else if dir != "" then ByDir(s.rows, dir)
    else None
  }

  /** What get-last may answer: the remembered node, or else any most recently
      opened one, or nothing when the table is empty. */
  ghost predicate IsLast(s: Store, r: Option<Node>) {
    if LastByMemory(s).Some? then r == LastByMemory(s)
    else if s.rows == [] then r.None?
    else r.Some? && r.value in s.rows && forall n :: n in s.rows ==> n.lastOpened <= r.value.lastOpened
  }

  /** After a save or a patch that brings a key, get-last answers its row. */
  lemma LastAfterKeyedSave(s: Store, req: Request, now: Time, r: Option<Node>)
    requires Valid(s.rows) && req.pubKey != ""
    requires IsLast(Apply(s, SaveConfig(req, now)), r)
    ensures r.Some? && r.value.dir == req.dir && r.value.pubKey == req.pubKey
    ensures r == ByDir(Apply(s, SaveConfig(req, now)).rows, req.dir)
  {
    SaveSucceeds(s, req, now);
    var s' := SaveTransaction(s, req, now).value;
    var row := SavedRow(req, StaleRow(s.rows, req), ByDir(s.rows, req.dir), now);
    RowOfKey(s'.rows, row);
    RowOfDir(s'.rows, row);
  }

  lemma LastAfterKeyedPatch(s: Store, dir: string, pubKey: string, alias: string, now: Time, r: Option<Node>)
    requires Valid(s.rows) && pubKey != "" && Patch(s, dir, pubKey, alias, now).Some?
    requires IsLast(Apply(s, PatchIdentity(dir, pubKey, alias, now)), r)
    ensures r.Some? && r.value.dir == dir && r.value.pubKey == pubKey
    ensures r == ByDir(Apply(s, PatchIdentity(dir, pubKey, alias, now)).rows, dir)
  {
    PatchFailsIffKeyElsewhere(s, dir, pubKey, alias, now);
    var s' := Patch(s, dir, pubKey, alias, now).value;
    ByDirFinds(s.rows, dir);
    RowOfKey(s'.rows, PatchedRow(s.rows, dir, pubKey, alias, now));
  }

  /** After a save without a key, get-last answers the saved row exactly when the
      remembered key, if a row still carries it, belongs to that directory. */
  lemma LastAfterKeylessSaveIff(s: Store, req: Request, now: Time, r: Option<Node>)
    requires Valid(s.rows) && req.pubKey == "" && req.dir != ""
    requires IsLast(Apply(s, SaveConfig(req, now)), r)
    ensures var key := Lookup(s.config, LAST_PUBKEY);
            (r.Some? && r.value.dir == req.dir) <==>
            (key != "" ==> forall n :: n in s.rows && n.pubKey == key ==> n.dir == req.dir)
  {
    SaveSucceeds(s, req, now);
    var s' := SaveTransaction(s, req, now).value;
    var key := Lookup(s.config, LAST_PUBKEY);
    var row := SavedRow(req, StaleRow(s.rows, req), ByDir(s.rows, req.dir), now);
    ByDirFinds(s.rows, req.dir);
    RowOfDir(s'.rows, row);
    ByKeyFinds(s'.rows, key);
    if key != "" && exists n :: n in s.rows && n.pubKey == key && n.dir != req.dir {
      var n :| n in s.rows && n.pubKey == key && n.dir != req.dir;
      RowOfKey(s'.rows, n);
    }
  }

  const KEYED := Request("key", "/a", "", false, "", "", "", "")
  const KEYLESS := Request("", "/b", "", false, "", "", "", "")

  /** The other side of it is reached from the empty registry: save one directory
      with a key, then another without, and get-last still answers the first. */
  lemma KeylessSaveMissed(r: Option<Node>)
    requires IsLast(Run(Store([], map[]), [SaveConfig(KEYED, 1), SaveConfig(KEYLESS, 2)]), r)
    ensures r.Some? && r.value.dir == "/a" && r.value.pubKey == "key" && r.value.lastOpened == 1
  {
    var s0 := Store([], map[]);
    var ops := [SaveConfig(KEYED, 1), SaveConfig(KEYLESS, 2)];
    var a := Node("/a", "key", "", false, "", "", "", "", 1);
    var s1 := Apply(s0, ops[0]);
    assert s1 == Store([a], map[LAST_DIR := "/a"][LAST_PUBKEY := "key"]);
    var s2 := Apply(s1, ops[1]);
    assert Run(s0, ops) == Run(s1, ops[1..]) == s2;
    SaveSucceeds(s1, KEYLESS, 2);
    assert a in s2.rows;
    RowOfKey(s2.rows, a);
  }
}

/** The handlers, step by step, on the database they share. */
module Registry {
  import opened Wrappers
  import opened RegistrySpec

  datatype Response = NoContent | BadRequest | Conflict | Unavailable | ServerError

  class Database {
    var ready: bool
    var rows: seq<Node>
    var config: map<string, string>
    const clean: string -> string  // filepath.Clean

    ghost function View(): Store
      reads this
    {
      Store(rows, config)
    }

    constructor (clean: string -> string)
      ensures ready && View() == Store([], map[]) && Valid(rows) && this.clean == clean
    {
      this.clean := clean;
      ready, rows, config := true, [], map[];
    }

    /** gorm's Save on the nodes table. */
    method SaveRow(node: Node) returns (ok: bool)
      modifies this`rows
      ensures !ok <==> node.pubKey != ""
                       && exists n :: n in old(rows) && n.pubKey == node.pubKey && n.dir != node.dir
      ensures !ok ==> rows == old(rows)
      ensures ok <==> Save(old(rows), node).Some?
      ensures rows == Save(old(rows), node).GetOr(old(rows))
    {
      ElsewhereFinds(rows, node.pubKey, node.dir);
      var saved := Save(rows, node);
      ok := saved.Some?;
      rows := saved.GetOr(rows);
    }

    /** Fills what the request left empty from the stale row of a moved node. */
    method InheritSettings(request: Request, o: Node) returns (req: Request)
      ensures req == Request(request.pubKey, request.dir,
                             if request.alias == "" then o.alias else request.alias,
                             request.nodePublic || o.nodePublic,
                             if request.externalIP == "" then o.externalIP else request.externalIP,
                             if request.restCors == "" then o.restCors else request.restCors,
                             if request.rpcListen == "" then o.rpcListen else request.rpcListen,
                             if request.restListen == "" then o.restListen else request.restListen)
    {
      req := request;
      if req.alias == "" { req := req.(alias := o.alias); }
      if !req.nodePublic { req := req.(nodePublic := o.nodePublic); }
      if req.externalIP == "" { req := req.(externalIP := o.externalIP); }
      if req.restCors == "" { req := req.(restCors := o.restCors); }
      if req.rpcListen == "" { req := req.(rpcListen := o.rpcListen); }
      if req.restListen == "" { req := req.(restListen := o.restListen); }
    }

    /** If the key is at another directory, the node has moved: its old row goes, and
        the request takes over the settings it left empty. */
    method RecoverMoved(request: Request) returns (req: Request)
      modifies this`rows
      ensures var stale := StaleRow(old(rows), request);
              && rows == (if stale.Some? then Delete(old(rows), stale.value.dir) else old(rows))
              && req == (if stale.Some? then Inherits(request, stale.value) else request)
    {
      req := request;
      if req.pubKey != "" {
        var stale := Elsewhere(rows, req.pubKey, req.dir);
        if stale.Some? {
          req := InheritSettings(req, stale.value);
          rows := Delete(rows, stale.value.dir);
        }
      }
    }

    method HandleSaveNodeConfig(request: Request, now: Time) returns (r: Response)
      requires Valid(rows)
      modifies this`rows, this`config
      ensures Valid(rows)
      ensures r == if request.dir == "" then BadRequest else if ready then NoContent else ServerError
      ensures r != NoContent ==> View() == old(View())
      ensures r == NoContent ==>
                View() == Apply(old(View()), SaveConfig(request.(dir := clean(request.dir)), now))
      ensures r == NoContent && HasNotMoved(old(rows), request.(dir := clean(request.dir))) ==>
                StoresFields(ByDir(rows, clean(request.dir)), request, now)
                && ByDir(rows, clean(request.dir)).value.pubKey
                   == KeyAfterSave(old(rows), request.(dir := clean(request.dir)))
    {
      var req := request;
      if req.dir == "" {
        return BadRequest;
      }
      req := req.(dir := clean(req.dir));
      if !ready {
        return ServerError;
      }
      ghost var before := View();
      SaveSucceeds(before, req, now);
      ghost var original := req;
      ghost var found := StaleRow(rows, req);
      req := RecoverMoved(req);
      var effectivePubKey := req.pubKey;
      if effectivePubKey == "" {
        var existing := ByDir(rows, req.dir);
        if existing.Some? && existing.value.pubKey != "" {
          effectivePubKey := existing.value.pubKey;
        }
      }
      var node := Node(req.dir, effectivePubKey, req.alias, req.nodePublic, req.externalIP,
                       req.restCors, req.rpcListen, req.restListen, now);
      assert node == SavedRow(original, found, ByDir(rows, req.dir), now);
      var ok := SaveRow(node);
      config := config[LAST_DIR := req.dir];
      if req.pubKey != "" {
        config := config[LAST_PUBKEY := req.pubKey];
      }
      r := NoContent;
      assert View() == Apply(before, SaveConfig(original, now));
      PlainSaveIfUnmoved(before, original, now);
    }

    method HandlePatchNodeIdentity(reqDir: string, pubKey: string, alias: string, now: Time) returns (r: Response)
      requires Valid(rows)
      modifies this`rows, this`config
      ensures Valid(rows)
      ensures r != NoContent ==> View() == old(View())
      ensures clean(reqDir) != "" && clean(reqDir) != "." && ready ==>
                (r == ServerError <==>
                   pubKey != "" && exists n :: n in old(rows) && n.pubKey == pubKey && n.dir != clean(reqDir))
      ensures r == BadRequest <==> clean(reqDir) == "" || clean(reqDir) == "."
      ensures r == BadRequest || r == ServerError || r == NoContent
      ensures r == NoContent ==> ready && View() == Apply(old(View()), PatchIdentity(clean(reqDir), pubKey, alias, now))
    {
      var dir := clean(reqDir);
      if dir == "" || dir == "." {
        return BadRequest;
      }
      if !ready {
        return ServerError;
      }
      PatchFailsIffKeyElsewhere(View(), dir, pubKey, alias, now);
      ApplyKeepsValid(View(), PatchIdentity(dir, pubKey, alias, now));
      var found := ByDir(rows, dir);
      var node := found.GetOr(Node(dir, "", "", true, "", "", "", "", 0));
      if pubKey != "" { node := node.(pubKey := pubKey); }
      if alias != "" { node := node.(alias := alias); }
      node := node.(lastOpened := now);
      assert node == PatchedRow(rows, dir, pubKey, alias, now);
      var ok := SaveRow(node);
      if !ok {
        return ServerError;
      }
      if pubKey != "" {
        config := config[LAST_PUBKEY := pubKey];
      }
      r := NoContent;
    }

    /** `running` is the data directory of the node in use, if there is one. */
    method HandleRemoveNode(queryDir: string, running: Option<string>) returns (r: Response)
      requires Valid(rows)
      modifies this`rows
      ensures Valid(rows)
      ensures r != NoContent ==> View() == old(View())
      ensures r == if clean(queryDir) == "" || clean(queryDir) == "." then BadRequest
                   else if running.Some? && clean(running.value) == clean(queryDir) then Conflict
                   else if ready then NoContent else Unavailable
      ensures r == NoContent ==> View() == Apply(old(View()), Op.Remove(clean(queryDir)))
                                 && forall n :: n in rows <==> n in old(rows) && n.dir != clean(queryDir)
    {
      var dir := clean(queryDir);
      if dir == "" || dir == "." {
        return BadRequest;
      }
      if running.Some? && clean(running.value) == dir {
        return Conflict;
      }
      if !ready {
        return Unavailable;
      }
      DeleteKeeps(rows, dir);
      rows := Delete(rows, dir);
      r := NoContent;
    }

    /** Three tiers: the remembered key, the remembered directory, the most
        recently opened row. */
    method HandleGetLastNode() returns (r: Option<Node>)
      ensures ready ==> IsLast(View(), r)
      ensures !ready ==> r.None?
    {
      if !ready {
        return None;
      }
      var key := Lookup(config, LAST_PUBKEY);
      if key != "" {
        r := ByKey(rows, key);
        if r.Some? {
          return;
        }
      }
      var dir := Lookup(config, LAST_DIR);
      if dir != "" {
        r := ByDir(rows, dir);
        if r.Some? {
          return;
        }
      }
      r := None;
      for i := 0 to |rows|
        invariant r.None? <==> i == 0
        invariant r.Some? ==> r.value in rows && forall j :: 0 <= j < i ==> rows[j].lastOpened <= r.value.lastOpened
      {
        if r.None? || rows[i].lastOpened > r.value.lastOpened {
          r := Some(rows[i]);
        }
      }
    }
  }
}
