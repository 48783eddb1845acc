/**
 * The serverless key-value store (netlify/functions/lib/db.ts): one table
 * `app_state` from a text key to a JSON document. The SQL text and the
 * database driver are not modelled; the table is a map.
 */
module StateStore {
  import opened Json

  /** `readState`: the stored document, or null when there is no row. */
  function ReadOf(rows: map<string, Json>, key: string): (r: Json)
    ensures key !in rows ==> r == JNull
    ensures key in rows ==> r == rows[key]
  {
    if key in rows then rows[key] else JNull
  }

  /** `upsertState`: insert, or replace on key conflict. */
  function Upserted(rows: map<string, Json>, key: string, data: Json): (r: map<string, Json>)
    ensures r.Keys == rows.Keys + {key}
    ensures r[key] == data
    ensures forall k :: k in rows && k != key ==> r[k] == rows[k]
  {
    rows[key := data]
  }

  /** A read after a write returns what was written. */
  lemma ReadAfterUpsert(rows: map<string, Json>, key: string, data: Json)
    ensures ReadOf(Upserted(rows, key, data), key) == data
  {
  }

  /** The last of two writes to a key wins, whatever was there before. */
  lemma LastWriteWins(rows: map<string, Json>, key: string, d1: Json, d2: Json)
    ensures Upserted(Upserted(rows, key, d1), key, d2) == Upserted(rows, key, d2)
  {
  }

  /** A write to one key leaves the reads of every other key as they were. */
  lemma UpsertKeepsOtherKeys(rows: map<string, Json>, key: string, other: string, data: Json)
    requires other != key
    ensures ReadOf(Upserted(rows, key, data), other) == ReadOf(rows, other)
  {
  }

  /** A stored JSON null reads back exactly like a key that was never written. */
  lemma StoredNullLooksAbsent(rows: map<string, Json>, key: string)
    requires key !in rows
    ensures ReadOf(Upserted(rows, key, JNull), key) == ReadOf(rows, key)
  {
  }

  /** The `app_state` table. */
  class StateTable {
    var created: bool
    var rows: map<string, Json>

    /** Before the first request the table does not exist and holds nothing. */
    constructor ()
      ensures !created && rows == map[]
    {
      created := false;
      rows := map[];
    }

    /** `ensureStateTable`: create the table if it is not there; existing rows are kept, so a second call changes nothing. */
    method EnsureStateTable()
      modifies this
      ensures created && rows == old(rows)
    {
      if !created {
        created := true;
      }
    }

    method ReadState(key: string) returns (data: Json)
      ensures data == ReadOf(rows, key)
    {
      if key in rows {
        data := rows[key];
      } else {
        data := JNull;
      }
    }

    method UpsertState(key: string, data: Json)
      modifies this
      ensures rows == Upserted(old(rows), key, data) && created == old(created)
    {
      rows := rows[key := data];
    }
  }
}
