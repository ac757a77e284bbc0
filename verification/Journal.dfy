/** The append-only order journal: what is recorded, and what a restart reads back from it. */
module Journal {
  import opened Wrappers
  import opened Models
  import opened Orders
  import opened OrderIds

  /** One line of the journal; `seq_key` and `seq` are functions of the id (see OrderIds). */
  datatype JournalRow = JournalRow(request: OrderRequest, status: OState, filled: real, revision: nat)

  function Coids(rows: seq<JournalRow>): (r: seq<string>)
    ensures |r| == |rows| && forall i :: 0 <= i < |rows| ==> r[i] == rows[i].request.coid
  {
    seq(|rows|, i requires 0 <= i < |rows| => rows[i].request.coid)
  }

  lemma CoidsSnoc(rows: seq<JournalRow>, row: JournalRow)
    ensures Coids(rows + [row]) == Coids(rows) + [row.request.coid]
  {
  }

  class OrderJournal {
    var rows: seq<JournalRow>
    var seen: set<string>
    var seqs: map<string, nat>

    /** The duplicate guard knows exactly the recorded ids. */
    ghost predicate Valid()
      reads this
    {
      forall c :: c != "" ==> (c in seen <==> c in Coids(rows))
    }

    /** Opens the file left behind by an earlier process. */
    constructor (file: seq<JournalRow>)
      ensures Valid() && rows == file && seqs == LoadCounters(Coids(file))
      ensures forall c :: c in seen <==> c != "" && c in Coids(file)
    {
      rows := file;
      var seen', seqs' := {}, map[];
      for i := 0 to |file|
        invariant forall c :: c in seen' <==> c != "" && c in Coids(file)[..i]
        invariant seqs' == LoadCounters(Coids(file)[..i])
      {
        var coid := file[i].request.coid;
        assert Coids(file)[..i + 1] == Coids(file)[..i] + [coid];
        if coid != "" {
          seen' := seen' + {coid};
        }
        var key := SeqKey(coid);
        if key.Some? {
          var before := Counter(seqs', key.value);
          seqs' := seqs'[key.value := if before >= SeqOf(coid) then before else SeqOf(coid)];
        }
      }
      assert Coids(file)[..|file|] == Coids(file);
      seen, seqs := seen', seqs';
    }

    method NextClientOrderId(date: string, symbol: string, intent: Intent) returns (coid: string)
      requires Valid()
      modifies this`seqs
      ensures Valid() && coid == NextId(old(seqs), Key(date, symbol, intent))
      ensures seqs == old(seqs)[Key(date, symbol, intent) := Counter(old(seqs), Key(date, symbol, intent)) + 1]
    {
      var key := Key(date, symbol, intent);
      var n := Counter(seqs, key) + 1;
      seqs := seqs[key := n];
      coid := Print(key, n);
    }

    predicate IsDuplicate(coid: string)
      reads this
    {
      coid in seen
    }

    method Record(order: OrderRequest, status: OState, filled: real, revision: nat)
      requires Valid()
      modifies this`rows, this`seen
      ensures Valid() && rows == old(rows) + [JournalRow(order, status, filled, revision)]
      ensures seen == old(seen) + {order.coid}
    {
      CoidsSnoc(rows, JournalRow(order, status, filled, revision));
      seen := seen + {order.coid};
      rows := rows + [JournalRow(order, status, filled, revision)];
    }
  }

  // ----- replay

  /** The last row written for an id. */
  function Latest(rows: seq<JournalRow>, coid: string): (r: Option<JournalRow>)
    ensures r.Some? ==> r.value.request.coid == coid
  {
    if rows == [] then None
    else if rows[|rows| - 1].request.coid == coid then Some(rows[|rows| - 1])
    else Latest(rows[..|rows| - 1], coid)
  }

  predicate Open(rows: seq<JournalRow>, coid: string) {
    coid != "" && Latest(rows, coid).Some? && !Terminal(Latest(rows, coid).value.status)
  }

  /** What replay restores of an order: neither deadline nor reservation nor average price. */
  function Revived(row: JournalRow): ManagedOrder {
    ManagedOrder(row.request, row.status, row.filled, 0.0, 0.0, 0.0, None, None, None, 0, [])
  }

  lemma LatestSnoc(rows: seq<JournalRow>, row: JournalRow, coid: string)
    ensures Latest(rows + [row], coid) == if row.request.coid == coid then Some(row) else Latest(rows, coid)
  {
    var r := rows + [row];
    assert r[..|r| - 1] == rows;
  }

  predicate Distinct(keys: seq<string>) { forall j, k :: 0 <= j < k < |keys| ==> keys[j] != keys[k] }

  /** The dictionary of last rows, and its keys in insertion order. */
  ghost predicate IsLatest(rows: seq<JournalRow>, latest: map<string, JournalRow>, keys: seq<string>) {
    && (forall c :: c in keys <==> c in latest)
    && (forall c :: c in latest <==> c != "" && Latest(rows, c).Some?)
    && (forall c :: c in latest ==> latest[c] == Latest(rows, c).value)
  }

  lemma ExtendLatest(rows: seq<JournalRow>, row: JournalRow, latest: map<string, JournalRow>, keys: seq<string>)
    requires IsLatest(rows, latest, keys)
    ensures var coid := row.request.coid;
            if coid == "" then IsLatest(rows + [row], latest, keys)
            else IsLatest(rows + [row], latest[coid := row], if coid in latest then keys else keys + [coid])
  {
    forall c ensures Latest(rows + [row], c) == if row.request.coid == c then Some(row) else Latest(rows, c) {
      LatestSnoc(rows, row, c);
    }
  }

  method LatestRows(rows: seq<JournalRow>) returns (latest: map<string, JournalRow>, keys: seq<string>)
    ensures IsLatest(rows, latest, keys) && Distinct(keys)
  {
    latest, keys := map[], [];
    for i := 0 to |rows|
      invariant IsLatest(rows[..i], latest, keys) && Distinct(keys)
    {
      ExtendLatest(rows[..i], rows[i], latest, keys);
      assert rows[..i + 1] == rows[..i] + [rows[i]];
      var coid := rows[i].request.coid;
      if coid != "" {
        if coid !in latest {
          keys := keys + [coid];
        }
        latest := latest[coid := rows[i]];
      }
    }
    assert rows[..|rows|] == rows;
  }

  function OpenOrders(latest: map<string, JournalRow>, keys: seq<string>): seq<ManagedOrder>
    requires forall c :: c in keys ==> c in latest
  {
    if keys == [] then [] else
    var row := latest[keys[|keys| - 1]];
    OpenOrders(latest, keys[..|keys| - 1]) + (if Terminal(row.status) then [] else [Revived(row)])
  }

  function IdsOf(orders: seq<ManagedOrder>): (r: seq<string>)
    ensures |r| == |orders| && forall i :: 0 <= i < |orders| ==> r[i] == orders[i].request.coid
  {
    seq(|orders|, i requires 0 <= i < |orders| => orders[i].request.coid)
  }

  lemma {:induction false} OpenOrdersComplete(rows: seq<JournalRow>, latest: map<string, JournalRow>, keys: seq<string>)
    requires forall c :: c in keys ==> c in latest && c != "" && Latest(rows, c) == Some(latest[c])
    requires Distinct(keys)
    ensures var out := OpenOrders(latest, keys);
            && (forall c :: c in IdsOf(out) <==> c in keys && Open(rows, c))
            && (forall o :: o in out ==> Open(rows, o.request.coid) && o == Revived(Latest(rows, o.request.coid).value))
            && Distinct(IdsOf(out))
  {
    if keys != [] {
      var front, last := keys[..|keys| - 1], keys[|keys| - 1];
      assert keys == front + [last];
      assert forall c :: c in front ==> c in keys;
      OpenOrdersComplete(rows, latest, front);
      var before, out := OpenOrders(latest, front), OpenOrders(latest, keys);
      assert out == before + (if Terminal(latest[last].status) then [] else [Revived(latest[last])]);
      hide OpenOrders, Latest;
      if !Terminal(latest[last].status) {
        assert out == before + [Revived(latest[last])];
        assert IdsOf(out) == IdsOf(before) + [last];
      } else {
        assert out == before;
      }
    }
  }

  /** `rebuild_open_orders`: exactly the orders whose last recorded state is not terminal, each once. */
  method RebuildOpenOrders(rows: seq<JournalRow>) returns (out: seq<ManagedOrder>)
    ensures forall c :: c in IdsOf(out) <==> Open(rows, c)
    ensures forall o :: o in out ==> Open(rows, o.request.coid) && o == Revived(Latest(rows, o.request.coid).value)
    ensures Distinct(IdsOf(out))
  {
    var latest, keys := LatestRows(rows);
    out := [];
    for i := 0 to |keys|
      invariant out == OpenOrders(latest, keys[..i])
    {
      var row := latest[keys[i]];
      assert keys[..i + 1][..i] == keys[..i];
      if !Terminal(row.status) {
        out := out + [Revived(row)];
      }
    }
    assert keys[..|keys|] == keys;
    OpenOrdersComplete(rows, latest, keys);
  }
}
