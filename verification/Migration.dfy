/**
 migrateSchema (db/db.go:56-108). The SQL it runs is modelled by its meaning:
 `GROUP BY dir` with `MAX(last_opened)` takes the other columns from a row that
 holds the maximum, any one of them on ties; creating the unique index fails, and
 the failure is ignored, when the rows violate it.
 */
module Migration {
  import opened Wrappers
  import opened RegistrySpec

  /** `news` holds, for every directory of `olds`, one of its most recently
      opened rows and nothing else. */
  ghost predicate IsLatestPerDir(news: seq<Node>, olds: seq<Node>) {
    && OneRowPerDir(news)
    && (forall n :: n in news ==> n in olds)
    && (forall m :: m in olds ==> Represented(news, m))
  }

  predicate Represented(news: seq<Node>, m: Node) {
    ByDir(news, m.dir).Some? && m.lastOpened <= ByDir(news, m.dir).value.lastOpened
  }

  method GroupByDir(olds: seq<Node>) returns (news: seq<Node>)
    ensures IsLatestPerDir(news, olds)
  {
    news := [];
    for i := 0 to |olds|
      invariant IsLatestPerDir(news, olds[..i])
    {
      var row := olds[i];
      assert olds[..i + 1] == olds[..i] + [row];
      var current := ByDir(news, row.dir);
      var tie: bool := *;
      if current.None? || row.lastOpened > current.value.lastOpened
         || (row.lastOpened == current.value.lastOpened && tie) {
        Takes(news, olds[..i], row);
        news := Upsert(news, row);
      } else {
        Keeps(news, olds[..i], row);
      }
    }
    assert olds[..|olds|] == olds;
  }

  lemma Keeps(news: seq<Node>, olds: seq<Node>, row: Node)
    requires IsLatestPerDir(news, olds) && Represented(news, row)
    ensures IsLatestPerDir(news, olds + [row])
  {
    assert forall n :: n in olds + [row] <==> n in olds || n == row;
  }

  lemma Takes(news: seq<Node>, olds: seq<Node>, row: Node)
    requires IsLatestPerDir(news, olds)
    requires ByDir(news, row.dir).Some? ==> ByDir(news, row.dir).value.lastOpened <= row.lastOpened
    ensures IsLatestPerDir(Upsert(news, row), olds + [row])
  {
    assert forall n :: n in olds + [row] <==> n in olds || n == row;
    UpsertOneRow(news, row);
    forall m | m in olds + [row] ensures Represented(Upsert(news, row), m) {
      UpsertByDir(news, row, m.dir);
      assert m in olds ==> Represented(news, m);
    }
  }

  lemma {:induction false} UpsertByDir(rows: seq<Node>, node: Node, dir: string)
    ensures ByDir(Upsert(rows, node), dir) == if dir == node.dir then Some(node) else ByDir(rows, dir)
  {
    if rows != [] && rows[0].dir != node.dir {
      UpsertByDir(rows[1..], node, dir);
      assert Upsert(rows, node)[1..] == Upsert(rows[1..], node);
    } else if rows != [] {
      assert ([node] + rows[1..])[1..] == rows[1..];
    }
  }

  /** Every row the grouping keeps is one of the most recently opened rows of its
      directory, and every directory has one. */
  lemma LatestMeans(news: seq<Node>, olds: seq<Node>, m: Node)
    requires IsLatestPerDir(news, olds) && m in olds
    ensures exists n :: n in news && n in olds && n.dir == m.dir && m.lastOpened <= n.lastOpened
    ensures forall n :: n in news && n.dir == m.dir ==> m.lastOpened <= n.lastOpened
  {
    assert Represented(news, m);
    ByDirFinds(news, m.dir);
    RowsOfDir(news, ByDir(news, m.dir).value);
  }

  /** Rows picked from a table keyed by pub_key have unique keys. */
  lemma PickedKeysUnique(news: seq<Node>, olds: seq<Node>)
    requires OneRowPerDir(news) && forall n :: n in news ==> n in olds
    requires forall i, j :: 0 <= i < j < |olds| ==> olds[i].pubKey != olds[j].pubKey
    ensures KeysUnique(news)
  {
    forall i, j | 0 <= i < j < |news| ensures news[i].pubKey != news[j].pubKey {
      assert news[i] in olds && news[j] in olds;
      var a :| 0 <= a < |olds| && olds[a] == news[i];
      var b :| 0 <= b < |olds| && olds[b] == news[j];
    }
  }

  class Schema {
    var hasNodes: bool       // the nodes table exists
    var dirIsKey: bool       // its primary key is dir
    var rows: seq<Node>
    var uniqueIndex: bool    // the partial unique index on pub_key
    var hasBackup: bool      // a nodes_old table is left over

    /** From any schema: a table keyed by pub_key becomes a sound registry with the
        latest row of every directory; a table keyed by dir keeps its rows. */
    method Migrate() returns (ok: bool)
      modifies this
      ensures ok <==> !(old(hasNodes) && !old(dirIsKey) && old(hasBackup))
      ensures !ok ==> rows == old(rows) && dirIsKey == old(dirIsKey) && hasNodes == old(hasNodes)
                      && uniqueIndex == old(uniqueIndex) && hasBackup == old(hasBackup)
      ensures ok ==> hasNodes && dirIsKey
      ensures ok && old(hasNodes) && !old(dirIsKey) ==> IsLatestPerDir(rows, old(rows))
      ensures ok && old(hasNodes) && !old(dirIsKey)
              && (forall i, j :: 0 <= i < j < |old(rows)| ==> old(rows)[i].pubKey != old(rows)[j].pubKey)
              ==> Valid(rows) && uniqueIndex
      ensures old(hasNodes) && old(dirIsKey) ==>
                rows == old(rows) && uniqueIndex == (old(uniqueIndex) || KeysUnique(rows))
      ensures !old(hasNodes) ==> rows == [] && uniqueIndex
    {
      ok := true;
      if hasNodes && !dirIsKey {
        if hasBackup {
          // the rename fails and the transaction, index drop included, is rolled back
          return false;
        }
        ghost var olds := rows;
        uniqueIndex := false;
        rows := GroupByDir(rows);
        dirIsKey := true;
        if forall i, j :: 0 <= i < j < |olds| ==> olds[i].pubKey != olds[j].pubKey {
          PickedKeysUnique(rows, olds);
        }
      }
      if !hasNodes {
        hasNodes, dirIsKey, rows, uniqueIndex := true, true, [], false;
      }
      if !uniqueIndex && NoDuplicateKey(rows) {
        uniqueIndex := true;
      }
    }

    /** Running the migration again changes nothing. */
    method MigrateTwice() returns (ghost once: seq<Node>)
      requires hasNodes && !dirIsKey && !hasBackup
      requires forall i, j :: 0 <= i < j < |rows| ==> rows[i].pubKey != rows[j].pubKey
      modifies this
      ensures Valid(once) && IsLatestPerDir(once, old(rows))
      ensures rows == once && uniqueIndex && hasNodes && dirIsKey
    {
      var ok := Migrate();
      once := rows;
      ok := Migrate();
    }
  }

  /** What creating the unique index checks. */
  predicate NoDuplicateKey(rows: seq<Node>)
    ensures NoDuplicateKey(rows) <==> KeysUnique(rows)
  {
    forall i, j :: 0 <= i < j < |rows| && rows[i].pubKey == rows[j].pubKey ==> rows[i].pubKey == ""
  }
}
