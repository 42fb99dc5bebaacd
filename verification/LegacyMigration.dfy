/** Moving the former native-only queue into the host-wide queue. */
module LegacyMigration {
  import opened Common
  import opened LedgerTypes
  import opened LedgerSpec
  import opened LedgerTables
  import TextOrder

  /** One `native_demand` row; a state the ledger does not know is `None`. */
  datatype LegacyRow = LegacyRow(
    requestId: string, scope: string, firstSeen: nat, sequence: int, state: Option<DemandState>, updated: nat)

  predicate LegacyBefore(a: LegacyRow, b: LegacyRow) {
    || a.firstSeen < b.firstSeen
    || (a.firstSeen == b.firstSeen
        && (a.sequence < b.sequence
            || (a.sequence == b.sequence && TextOrder.Before(a.requestId, b.requestId))))
  }

  /** The legacy query's answer: ordered by first seen, sequence and request, one row per request. */
  ghost predicate InLegacyOrder(rows: seq<LegacyRow>) {
    && (forall i, j :: 0 <= i < j < |rows| ==> LegacyBefore(rows[i], rows[j]))
    && (forall i, j :: 0 <= i < j < |rows| ==> rows[i].requestId != rows[j].requestId)
  }

  function NativeHolder(row: LegacyRow): Holder {
    "native/" + row.requestId
  }

  lemma NativeHoldersDiffer(a: LegacyRow, b: LegacyRow)
    requires a.requestId != b.requestId
    ensures NativeHolder(a) != NativeHolder(b)
  {
    assert NativeHolder(a)[7..] == a.requestId && NativeHolder(b)[7..] == b.requestId;
  }

  ghost predicate AllKnown(rows: seq<LegacyRow>) {
    forall i :: 0 <= i < |rows| ==> rows[i].state.Some?
  }

  function MigratedCopy(row: LegacyRow, sequence: nat): Demand
    requires row.state.Some?
  {
    Demand(Native, row.scope, row.firstSeen, sequence, row.state.value, row.updated)
  }

  /** Insert the rows whose holder is not queued yet, numbering them from `next`. */
  ghost function Migration(queue: map<Holder, Demand>, next: nat, rows: seq<LegacyRow>): map<Holder, Demand>
    requires AllKnown(rows)
    decreases |rows|
  {
    if rows == [] then queue
    else
      var h := NativeHolder(rows[0]);
      if h in queue then Migration(queue, next, rows[1..])
      else Migration(queue[h := MigratedCopy(rows[0], next)], next + 1, rows[1..])
  }

  /** All or nothing: a row whose state is unknown refuses the whole migration. */
  method MigrateLegacyDemand(demands: map<Holder, Demand>, rows: seq<LegacyRow>)
    returns (after: Option<map<Holder, Demand>>)
    ensures after.Some? <==> AllKnown(rows)
    ensures after.Some? ==> after.value == Migration(demands, NextSequence(demands), rows)
  {
    var next := SelectNextSequence(demands);
    var queue := demands;
    for k := 0 to |rows|
      invariant AllKnown(rows[..k])
      invariant AllKnown(rows) ==> Migration(demands, NextSequence(demands), rows) == Migration(queue, next, rows[k..])
    {
      var row := rows[k];
      if row.state.None? {
        return None;
      }
      assert rows[k..][0] == row && rows[k..][1..] == rows[k + 1..];
      var holder := NativeHolder(row);
      if holder !in queue {
        queue := queue[holder := MigratedCopy(row, next)];
        next := next + 1;
      }
    }
    assert rows[..|rows|] == rows;
    after := Some(queue);
  }

  /** Demand already queued is untouched. */
  lemma {:induction false} MigrationKeepsDemand(queue: map<Holder, Demand>, next: nat, rows: seq<LegacyRow>, h: Holder)
    requires AllKnown(rows) && h in queue
    ensures h in Migration(queue, next, rows) && Migration(queue, next, rows)[h] == queue[h]
    decreases |rows|
  {
    if rows != [] {
      var k := NativeHolder(rows[0]);
      if k in queue {
        MigrationKeepsDemand(queue, next, rows[1..], h);
      } else {
        MigrationKeepsDemand(queue[k := MigratedCopy(rows[0], next)], next + 1, rows[1..], h);
      }
    }
  }

  /** Every legacy row that was not queued is now, as its own copy, numbered `next` or later. */
  lemma {:induction false} MigrationCopiesRow(queue: map<Holder, Demand>, next: nat, rows: seq<LegacyRow>, i: nat)
    requires InLegacyOrder(rows) && AllKnown(rows) && i < |rows| && NativeHolder(rows[i]) !in queue
    ensures var after := Migration(queue, next, rows); var h := NativeHolder(rows[i]);
      && h in after && after[h].sequence >= next && after[h] == MigratedCopy(rows[i], after[h].sequence)
      && after[h].lane == Native && after[h].scope == rows[i].scope && after[h].firstSeen == rows[i].firstSeen
      && Some(after[h].state) == rows[i].state && after[h].updated == rows[i].updated
    decreases |rows|
  {
    var k, rest := NativeHolder(rows[0]), rows[1..];
    assert forall j :: 0 <= j < |rest| ==> rest[j] == rows[j + 1];
    if i == 0 {
      MigrationKeepsDemand(queue[k := MigratedCopy(rows[0], next)], next + 1, rest, k);
    } else {
      NativeHoldersDiffer(rows[0], rows[i]);
      assert rest[i - 1] == rows[i];
      if k in queue {
        MigrationCopiesRow(queue, next, rest, i - 1);
      } else {
        MigrationCopiesRow(queue[k := MigratedCopy(rows[0], next)], next + 1, rest, i - 1);
      }
    }
  }

  /** Nothing but legacy rows is added. */
  lemma {:induction false} MigrationAddsOnlyRows(queue: map<Holder, Demand>, next: nat, rows: seq<LegacyRow>, h: Holder)
    requires AllKnown(rows) && h in Migration(queue, next, rows) && h !in queue
    ensures exists i :: 0 <= i < |rows| && h == NativeHolder(rows[i])
    decreases |rows|
  {
    if rows == [] {
    } else if h == NativeHolder(rows[0]) {
    } else {
      var k, rest := NativeHolder(rows[0]), rows[1..];
      if k in queue {
        MigrationAddsOnlyRows(queue, next, rest, h);
      } else {
        MigrationAddsOnlyRows(queue[k := MigratedCopy(rows[0], next)], next + 1, rest, h);
      }
      var i :| 0 <= i < |rest| && h == NativeHolder(rest[i]);
      assert rows[i + 1] == rest[i];
    }
  }

  /** Of two rows that were not queued, the earlier one gets the smaller sequence. */
  lemma {:induction false} MigrationNumbersInOrder(
      queue: map<Holder, Demand>, next: nat, rows: seq<LegacyRow>, i: nat, j: nat)
    requires InLegacyOrder(rows) && AllKnown(rows) && i < j < |rows|
    requires NativeHolder(rows[i]) !in queue && NativeHolder(rows[j]) !in queue
    ensures var after := Migration(queue, next, rows);
      && NativeHolder(rows[i]) in after && NativeHolder(rows[j]) in after
      && after[NativeHolder(rows[i])].sequence < after[NativeHolder(rows[j])].sequence
    decreases |rows|
  {
    var k, rest := NativeHolder(rows[0]), rows[1..];
    assert forall m :: 0 <= m < |rest| ==> rest[m] == rows[m + 1];
    assert rest[j - 1] == rows[j];
    NativeHoldersDiffer(rows[0], rows[j]);
    if i == 0 {
      var queue' := queue[k := MigratedCopy(rows[0], next)];
      MigrationKeepsDemand(queue', next + 1, rest, k);
      MigrationCopiesRow(queue', next + 1, rest, j - 1);
    } else {
      NativeHoldersDiffer(rows[0], rows[i]);
      assert rest[i - 1] == rows[i];
      if k in queue {
        MigrationNumbersInOrder(queue, next, rest, i - 1, j - 1);
      } else {
        MigrationNumbersInOrder(queue[k := MigratedCopy(rows[0], next)], next + 1, rest, i - 1, j - 1);
      }
    }
  }

  /** The migrated table keeps the unique index on sequences. */
  lemma {:induction false} MigrationKeepsSequencesUnique(queue: map<Holder, Demand>, next: nat, rows: seq<LegacyRow>)
    requires AllKnown(rows) && SequencesUnique(queue) && forall h :: h in queue ==> queue[h].sequence < next
    ensures SequencesUnique(Migration(queue, next, rows))
    decreases |rows|
  {
    if rows != [] {
      var h := NativeHolder(rows[0]);
      if h in queue {
        MigrationKeepsSequencesUnique(queue, next, rows[1..]);
      } else {
        MigrationKeepsSequencesUnique(queue[h := MigratedCopy(rows[0], next)], next + 1, rows[1..]);
      }
    }
  }

  /** Migrated rows queue in exactly their legacy order, all of them numbered after the demand
      that was already there. */
  lemma MigrationKeepsQueueOrder(demands: map<Holder, Demand>, rows: seq<LegacyRow>, i: nat, j: nat)
    requires InLegacyOrder(rows) && AllKnown(rows) && i < |rows| && j < |rows| && i != j
    requires NativeHolder(rows[i]) !in demands && NativeHolder(rows[j]) !in demands
    ensures var after := Migration(demands, NextSequence(demands), rows);
      && NativeHolder(rows[i]) in after && NativeHolder(rows[j]) in after
      && (TicketBefore(after[NativeHolder(rows[i])], after[NativeHolder(rows[j])]) <==> LegacyBefore(rows[i], rows[j]))
      && forall h :: h in demands ==> demands[h].sequence < after[NativeHolder(rows[i])].sequence
  {
    MaxSequenceIsMax(demands);
    TextOrder.BeforeIsAsymmetric(rows[i].requestId, rows[j].requestId);
    MigrationCopiesRow(demands, NextSequence(demands), rows, i);
    MigrationCopiesRow(demands, NextSequence(demands), rows, j);
    if i < j {
      MigrationNumbersInOrder(demands, NextSequence(demands), rows, i, j);
    } else {
      MigrationNumbersInOrder(demands, NextSequence(demands), rows, j, i);
    }
  }
}
