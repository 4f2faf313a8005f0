/** The `wallet` table of `db.py`: one row per asset type (the primary key), five
    nullable REAL columns. The table is kept in memory; `order` is the order in which
    the rows were inserted, the order a full scan returns them in. */
module Ledger {
  import opened Common

  /** A stored row; None is SQL NULL. */
  datatype StoredRow = StoredRow(
    miktar: Option<real>,
    maliyet: Option<real>,
    alisFiyati: Option<real>,
    satisFiyati: Option<real>,
    karZarar: Option<real>)

  /** A row as `load_wallet_data` reports it: every NULL read as 0. */
  datatype Holding = Holding(miktar: real, maliyet: real, alisFiyati: real, satisFiyati: real, karZarar: real)

  function OrZero(x: Option<real>): real
  {
    if x.Some? then x.value else 0.0
  }

  function Reported(row: StoredRow): Holding
  {
    Holding(OrZero(row.miktar), OrZero(row.maliyet), OrZero(row.alisFiyati), OrZero(row.satisFiyati), OrZero(row.karZarar))
  }

  /** `save_wallet_data`: an existing row gets the four new values and keeps its
      `kar_zarar`; a new row is inserted with `kar_zarar` NULL. */
  function Upserted(rows: map<string, StoredRow>, key: string, miktar: Option<real>, maliyet: Option<real>, alis: Option<real>, satis: Option<real>): (r: map<string, StoredRow>)
    ensures r.Keys == rows.Keys + {key}
    ensures forall k :: k in rows && k != key ==> r[k] == rows[k]
    ensures r[key].miktar == miktar && r[key].maliyet == maliyet && r[key].alisFiyati == alis && r[key].satisFiyati == satis
    ensures r[key].karZarar == if key in rows then rows[key].karZarar else None
  {
    var kept := if key in rows then rows[key].karZarar else None;
    rows[key := StoredRow(miktar, maliyet, alis, satis, kept)]
  }

  /** `update_wallet_data`: the row's `miktar` and `kar_zarar` change; no row, no effect. */
  function Updated(rows: map<string, StoredRow>, key: string, miktar: Option<real>, karZarar: Option<real>): (r: map<string, StoredRow>)
    ensures r.Keys == rows.Keys
    ensures forall k :: k in rows && k != key ==> r[k] == rows[k]
    ensures key in rows ==> r[key] == rows[key].(miktar := miktar, karZarar := karZarar)
  {
    if key in rows then rows[key := rows[key].(miktar := miktar, karZarar := karZarar)] else rows
  }

  /** The insertion order without `key`. */
  function Without(order: seq<string>, key: string): (r: seq<string>)
    ensures forall k :: k in r <==> k in order && k != key
    ensures Distinct(order) ==> Distinct(r)
  {
    if order == [] then []
    else
      var rest := Without(order[1..], key);
      assert Distinct(order) ==> Distinct(order[1..]) && order[0] !in order[1..];
      (if order[0] == key then [] else [order[0]]) + rest
  }

  /** The keys the SELECT returns: one row when a non-empty key is given (`if
      varlik_turu:`), every row in insertion order otherwise. */
  function Selected(rows: map<string, StoredRow>, order: seq<string>, key: Option<string>): seq<string>
  {
    if key.Some? && key.value != "" then (if key.value in rows then [key.value] else []) else order
  }

  /** The dict `load_wallet_data` builds, as its items in order. */
  function LoadOf(rows: map<string, StoredRow>, order: seq<string>, key: Option<string>): (data: seq<(string, Holding)>)
    requires forall k :: k in order ==> k in rows
  {
    var sel := Selected(rows, order, key);
    seq(|sel|, i requires 0 <= i < |sel| => (sel[i], Reported(rows[sel[i]])))
  }

  /** Loading one asset gives that row alone, or nothing when it is absent; loading with
      no key (or the empty key) gives every row in insertion order. */
  lemma LoadSelects(rows: map<string, StoredRow>, order: seq<string>, key: Option<string>)
    requires Enumerates(order, rows)
    ensures key.Some? && key.value != "" && key.value in rows ==> LoadOf(rows, order, key) == [(key.value, Reported(rows[key.value]))]
    ensures key.Some? && key.value != "" && key.value !in rows ==> LoadOf(rows, order, key) == []
    ensures key.None? || key.value == "" ==> KeysOf(LoadOf(rows, order, key)) == order
    ensures Distinct(KeysOf(LoadOf(rows, order, key)))
  {
    var data := LoadOf(rows, order, key);
    if key.Some? && key.value != "" && key.value in rows {
      assert |data| == 1 && data[0] == (key.value, Reported(rows[key.value]));
    }
  }

  /** Whatever the key, an asset appears in what is loaded for it exactly when it has a
      row: the empty key loads every row, and so finds the row "" if there is one. */
  lemma LoadFindsRow(rows: map<string, StoredRow>, order: seq<string>, key: string)
    requires Enumerates(order, rows)
    ensures key in KeysOf(LoadOf(rows, order, Some(key))) <==> key in rows
  {
    var data := LoadOf(rows, order, Some(key));
    if key != "" && key in rows {
      assert KeysOf(data)[0] == key;
    }
    if key == "" && key in rows {
      assert KeysOf(data) == order;
    }
  }

  /** Reading back a saved asset gives the four values just written, with NULL read as
      0, and the profit/loss of the earlier row, or 0 for a new one. */
  lemma LoadAfterSave(rows: map<string, StoredRow>, order: seq<string>, key: string, miktar: Option<real>, maliyet: Option<real>, alis: Option<real>, satis: Option<real>)
    requires Enumerates(order, rows) && key != ""
    ensures var order' := if key in rows then order else order + [key];
      LoadOf(Upserted(rows, key, miktar, maliyet, alis, satis), order', Some(key))
        == [(key, Holding(OrZero(miktar), OrZero(maliyet), OrZero(alis), OrZero(satis), if key in rows then OrZero(rows[key].karZarar) else 0.0))]
  {
    var order' := if key in rows then order else order + [key];
    var rows' := Upserted(rows, key, miktar, maliyet, alis, satis);
    LoadSelects(rows', order', Some(key));
  }

  /** Reading back an updated asset gives the new quantity and profit/loss and the old
      cost and prices. */
  lemma LoadAfterUpdate(rows: map<string, StoredRow>, order: seq<string>, key: string, miktar: Option<real>, karZarar: Option<real>)
    requires Enumerates(order, rows) && key != "" && key in rows
    ensures LoadOf(Updated(rows, key, miktar, karZarar), order, Some(key))
      == [(key, Reported(rows[key]).(miktar := OrZero(miktar), karZarar := OrZero(karZarar)))]
  {
    LoadSelects(Updated(rows, key, miktar, karZarar), order, Some(key));
  }

  /** After a delete the asset loads as nothing, and every other asset loads as before. */
  lemma LoadAfterRemove(rows: map<string, StoredRow>, order: seq<string>, key: string, other: string)
    requires Enumerates(order, rows) && key != "" && other != "" && other != key
    ensures LoadOf(rows - {key}, Without(order, key), Some(key)) == []
    ensures LoadOf(rows - {key}, Without(order, key), Some(other)) == LoadOf(rows, order, Some(other))
  {
  }

  /** The table. */
  class WalletTable {
    var rows: map<string, StoredRow>
    var order: seq<string>

    ghost predicate Valid()
      reads this
    {
      Enumerates(order, rows)
    }

    /** `initialize_db` on a fresh database file. */
    constructor ()
      ensures Valid() && rows == map[] && order == []
    {
      rows := map[];
      order := [];
    }

    /** `save_wallet_data`. */
    method Save(key: string, miktar: Option<real>, maliyet: Option<real>, alis: Option<real>, satis: Option<real>)
      requires Valid()
      modifies this
      ensures Valid()
      ensures rows == Upserted(old(rows), key, miktar, maliyet, alis, satis)
      ensures order == if key in old(rows) then old(order) else old(order) + [key]
    {
      if key in rows {
        rows := rows[key := StoredRow(miktar, maliyet, alis, satis, rows[key].karZarar)];
      } else {
        rows := rows[key := StoredRow(miktar, maliyet, alis, satis, None)];
        order := order + [key];
      }
    }

    /** `load_wallet_data`: the rows the SELECT returns, turned into the dict row by row. */
    method Load(key: Option<string>) returns (data: seq<(string, Holding)>)
      requires Valid()
      ensures data == LoadOf(rows, order, key)
    {
      var sel := Selected(rows, order, key);
      data := [];
      for i := 0 to |sel|
        invariant data == LoadOf(rows, order, key)[..i]
      {
        var k := sel[i];
        data := data + [(k, Reported(rows[k]))];
      }
    }

    /** `update_wallet_data`. */
    method Update(key: string, miktar: Option<real>, karZarar: Option<real>)
      requires Valid()
      modifies this
      ensures Valid()
      ensures rows == Updated(old(rows), key, miktar, karZarar)
      ensures order == old(order)
    {
      if key in rows {
        rows := rows[key := rows[key].(miktar := miktar, karZarar := karZarar)];
      }
    }

    /** `remove_wallet_data`: only the given asset's row goes. */
    method Remove(key: string)
      requires Valid()
      modifies this
      ensures Valid()
      ensures rows == old(rows) - {key}
      ensures order == Without(old(order), key)
    {
      rows := rows - {key};
      order := Without(order, key);
    }

    /** `empty_wallet`: every row goes, and the call reports success. */
    method Clear() returns (ok: bool)
      requires Valid()
      modifies this
      ensures Valid()
      ensures ok && rows == map[] && order == []
    {
      rows := map[];
      order := [];
      ok := true;
    }
  }
}
