/**
 * The SQLite store behind the relay: the `targets` table (rows kept in rowid
 * order, ids handed out by AUTOINCREMENT) and the `settings` key/value table
 * written with INSERT OR REPLACE, plus the setup helpers built on it.
 */
module Db {
  import opened Text

  /** One row of `targets`; `enabled` is the 0/1 column. */
  datatype Target = Target(id: int, name: string, url: string, streamKey: string, enabled: bool)

  /** Rows in rowid order: ids strictly increase along the sequence. */
  predicate IdsAscending(rows: seq<Target>)
  {
    forall i, j :: 0 <= i < j < |rows| ==> rows[i].id < rows[j].id
  }

  predicate HasId(rows: seq<Target>, id: int)
  {
    exists i :: 0 <= i < |rows| && rows[i].id == id
  }

  /** `SELECT * FROM targets WHERE enabled = 1`: the enabled rows, in table order. */
  function EnabledOf(rows: seq<Target>): (r: seq<Target>)
    ensures forall t :: t in r <==> t in rows && t.enabled
    ensures |r| <= |rows|
    ensures IdsAscending(rows) ==> IdsAscending(r)
  {
    if rows == [] then []
    else
      var rest := EnabledOf(rows[1..]);
      assert forall t :: t in rows[1..] ==> t in rows;
      if rows[0].enabled then [rows[0]] + rest else rest
  }

  /** The number of rows a `WHERE id = ?` matches. */
  function CountWithId(rows: seq<Target>, id: int): (n: nat)
    ensures n <= |rows|
    ensures n == 0 <==> !HasId(rows, id)
  {
    if rows == [] then 0
    else
      var n := CountWithId(rows[1..], id);
      assert HasId(rows[1..], id) ==> HasId(rows, id) by {
        if HasId(rows[1..], id) {
          var i :| 0 <= i < |rows| - 1 && rows[1..][i].id == id;
          assert rows[i + 1].id == id;
        }
      }
      assert HasId(rows, id) && rows[0].id != id ==> HasId(rows[1..], id) by {
        if HasId(rows, id) && rows[0].id != id {
          var i :| 0 <= i < |rows| && rows[i].id == id;
          assert rows[1..][i - 1].id == id;
        }
      }
      (if rows[0].id == id then 1 else 0) + n
  }

  /** id is the primary key: with rows in rowid order, at most one row carries it. */
  lemma {:induction false} AtMostOneRow(rows: seq<Target>, id: int)
    requires IdsAscending(rows)
    ensures CountWithId(rows, id) == if HasId(rows, id) then 1 else 0
  {
    if rows != [] {
      AtMostOneRow(rows[1..], id);
      if rows[0].id == id {
        forall i | 0 <= i < |rows| - 1 ensures rows[1..][i].id != id {
          assert rows[0].id < rows[i + 1].id;
        }
      }
    }
  }

  /** `DELETE FROM targets WHERE id = ?`: every other row, in order. */
  function WithoutId(rows: seq<Target>, id: int): (r: seq<Target>)
    ensures forall t :: t in r <==> t in rows && t.id != id
    ensures |r| == |rows| - CountWithId(rows, id)
  {
    if rows == [] then []
    else
      var rest := WithoutId(rows[1..], id);
      assert forall t :: t in rows[1..] ==> t in rows;
      if rows[0].id == id then rest else [rows[0]] + rest
  }

  /** Deleting rows keeps the others in rowid order. */
  lemma {:induction false} WithoutIdAscending(rows: seq<Target>, id: int)
    requires IdsAscending(rows)
    ensures IdsAscending(WithoutId(rows, id))
  {
    if rows != [] {
      var rest := WithoutId(rows[1..], id);
      WithoutIdAscending(rows[1..], id);
      if rows[0].id != id {
        forall j | 0 <= j < |rest| ensures rows[0].id < rest[j].id {
          assert rest[j] in rows[1..];
          var k :| 0 <= k < |rows| - 1 && rows[1..][k] == rest[j];
          assert rows[k + 1] == rest[j];
        }
      }
    }
  }

  /** `UPDATE targets SET enabled = ? WHERE id = ?`, row by row. */
  function WithEnabled(rows: seq<Target>, id: int, enabled: bool): seq<Target>
  {
    seq(|rows|, i requires 0 <= i < |rows| =>
      if rows[i].id == id then rows[i].(enabled := enabled) else rows[i])
  }

  class Store {
    /** The `targets` table, in rowid order. */
    var rows: seq<Target>
    /** The AUTOINCREMENT sequence value: the largest id ever handed out. */
    var lastId: nat
    /** The `settings` table. */
    var settings: map<string, string>
    /** Every id ever handed out. */
    ghost var issued: set<int>

    ghost predicate Valid()
      reads this
    {
      && IdsAscending(rows)
      && (forall i :: 0 <= i < |rows| ==> rows[i].id in issued)
      && (forall k :: k in issued <==> 1 <= k <= lastId)
    }

    constructor ()
      ensures Valid() && rows == [] && settings == map[] && lastId == 0
    {
      rows := [];
      lastId := 0;
      settings := map[];
      issued := {};
    }

    /** `SELECT * FROM targets`: the rows in rowid order, each under an id handed out by AUTOINCREMENT. */
    function GetTargets(): (r: seq<Target>)
      reads this
      ensures Valid() ==> IdsAscending(r) && forall i :: 0 <= i < |r| ==> 1 <= r[i].id <= lastId
    {
      rows
    }

    /** `SELECT * FROM targets WHERE enabled = 1`: exactly the enabled rows, still in rowid order. */
    function GetEnabledTargets(): (r: seq<Target>)
      reads this
      ensures forall t :: t in r <==> t in GetTargets() && t.enabled
      ensures Valid() ==> IdsAscending(r)
    {
      EnabledOf(rows)
    }

    /** Inserts an enabled row under a fresh id and returns it. */
    method AddTarget(name: string, url: string, streamKey: string) returns (t: Target)
      requires Valid()
      modifies this
      ensures Valid()
      ensures t == Target(old(lastId) + 1, name, url, streamKey, true)
      ensures t.id !in old(issued) && issued == old(issued) + {t.id}
      ensures rows == old(rows) + [t]
      ensures settings == old(settings)
    {
      lastId := lastId + 1;
      t := Target(lastId, name, url, streamKey, true);
      issued := issued + {t.id};
      rows := rows + [t];
    }

    /** Sets one row's enabled flag; answers how many rows matched (1 or 0). */
    method UpdateTargetStatus(id: int, enabled: bool) returns (changes: nat)
      requires Valid()
      modifies this
      ensures Valid()
      ensures changes == if HasId(old(rows), id) then 1 else 0
      ensures |rows| == |old(rows)|
      ensures forall i :: 0 <= i < |rows| ==>
                rows[i] == if old(rows)[i].id == id then old(rows)[i].(enabled := enabled) else old(rows)[i]
      ensures settings == old(settings) && lastId == old(lastId) && issued == old(issued)
    {
      AtMostOneRow(rows, id);
      changes := CountWithId(rows, id);
      rows := WithEnabled(rows, id, enabled);
    }

    /** Deletes the row with this id; answers how many rows went (1 or 0). */
    method RemoveTarget(id: int) returns (changes: nat)
      requires Valid()
      modifies this
      ensures Valid()
      ensures changes == if HasId(old(rows), id) then 1 else 0
      ensures |rows| == |old(rows)| - changes
      ensures forall t :: t in rows <==> t in old(rows) && t.id != id
      ensures settings == old(settings) && lastId == old(lastId) && issued == old(issued)
    {
      AtMostOneRow(rows, id);
      changes := CountWithId(rows, id);
      var before := rows;
      WithoutIdAscending(rows, id);
      rows := WithoutId(rows, id);
      forall i | 0 <= i < |rows| ensures rows[i].id in issued {
        assert rows[i] in before;
      }
    }

    /** `SELECT value FROM settings WHERE key = ?`; null when there is no row. */
    function GetSetting(key: string): (r: Option<string>)
      reads this
      ensures r.Some? <==> key in settings
      ensures r.Some? ==> r.value == settings[key]
    {
      if key in settings then Some(settings[key]) else None
    }

    /** INSERT OR REPLACE: the key now reads as value, every other key as before. */
    method SetSetting(key: string, value: string) returns (changes: nat)
      modifies this
      ensures GetSetting(key) == Some(value)
      ensures forall k :: k != key ==> GetSetting(k) == old(GetSetting(k))
      ensures settings == old(settings)[key := value]
      ensures changes == 1
      ensures rows == old(rows) && lastId == old(lastId) && issued == old(issued)
    {
      settings := settings[key := value];
      changes := 1;
    }

    /** Setup is complete exactly when `setup_finished` is the string "1". */
    predicate IsSetupComplete()
      reads this
      ensures IsSetupComplete() <==> "setup_finished" in settings && settings["setup_finished"] == "1"
    {
      GetSetting("setup_finished") == Some("1")
    }

    method SetSetupFinished()
      modifies this
      ensures IsSetupComplete()
      ensures GetSetupStep() == old(GetSetupStep())
      ensures GetPasswordHash() == old(GetPasswordHash()) && GetStreamKeyDb() == old(GetStreamKeyDb())
      ensures settings == old(settings)["setup_finished" := "1"]
      ensures rows == old(rows) && lastId == old(lastId) && issued == old(issued)
    {
      var _ := SetSetting("setup_finished", "1");
    }

    /** The `password_hash` setting, or null when none is stored. */
    function GetPasswordHash(): (r: Option<string>)
      reads this
      ensures r.Some? <==> "password_hash" in settings
      ensures r.Some? ==> r.value == settings["password_hash"]
    {
      GetSetting("password_hash")
    }

    method SetPasswordHash(hash: string)
      modifies this
      ensures GetPasswordHash() == Some(hash)
      ensures IsSetupComplete() == old(IsSetupComplete()) && GetSetupStep() == old(GetSetupStep())
      ensures GetStreamKeyDb() == old(GetStreamKeyDb())
      ensures settings == old(settings)["password_hash" := hash]
      ensures rows == old(rows) && lastId == old(lastId) && issued == old(issued)
    {
      var _ := SetSetting("password_hash", hash);
    }

    /** The `stream_key` setting, or null when none is stored. */
    function GetStreamKeyDb(): (r: Option<string>)
      reads this
      ensures r.Some? <==> "stream_key" in settings
      ensures r.Some? ==> r.value == settings["stream_key"]
    {
      GetSetting("stream_key")
    }

    method SetStreamKeyDb(key: string)
      modifies this
      ensures GetStreamKeyDb() == Some(key)
      ensures IsSetupComplete() == old(IsSetupComplete()) && GetSetupStep() == old(GetSetupStep())
      ensures GetPasswordHash() == old(GetPasswordHash())
      ensures settings == old(settings)["stream_key" := key]
      ensures rows == old(rows) && lastId == old(lastId) && issued == old(issued)
    {
      var _ := SetSetting("stream_key", key);
    }

    /** The stored step read with parseInt(v, 10), or 1 when unset or empty. */
    function GetSetupStep(): (r: JsNum)
      reads this
      ensures "setup_step" !in settings || settings["setup_step"] == "" ==> r == Num(1)
    {
      var v := GetSetting("setup_step");
      if Present(v) then ParseInt(v.value, false) else Num(1)
    }

    /** Stores String(step); getSetupStep then reads the same step back. */
    method SetSetupStep(step: int)
      modifies this
      ensures GetSetupStep() == Num(step)
      ensures IsSetupComplete() == old(IsSetupComplete())
      ensures GetPasswordHash() == old(GetPasswordHash()) && GetStreamKeyDb() == old(GetStreamKeyDb())
      ensures settings == old(settings)["setup_step" := IntToString(step)]
      ensures rows == old(rows) && lastId == old(lastId) && issued == old(issued)
    {
      var _ := SetSetting("setup_step", IntToString(step));
      ParseIntOfIntToString(step, false);
    }
  }
}
