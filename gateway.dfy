/**
 * The hosted services the pages call, reduced to what the core needs: an
 * entity store per entity type (a map from id to a JSON-like record, with
 * partial-field `update` and `create`) and an email outbox. Each call takes
 * its outcome as a parameter, so that every failure path can be followed.
 */
module Gateway {
  import opened Wrappers
  import opened Entities

  /** A JSON field value. */
  datatype Value = Str(s: string) | Flag(b: bool) | Num(n: int) | Strs(items: seq<string>) | Obj(fields: map<string, Value>)

  /** A stored record: field name to value. */
  type Record = map<string, Value>

  /**
   * A record after a partial-field update (or an object spread
   * `{...r, ...patch}`): the patch's fields take the patch's values, every
   * other field keeps its own.
   */
  function Patched(r: Record, patch: Record): (r': Record)
    ensures r'.Keys == r.Keys + patch.Keys
    ensures forall k :: k in patch ==> r'[k] == patch[k]
    ensures forall k :: k in r && k !in patch ==> r'[k] == r[k]
  {
    r + patch
  }

  /** The records of one entity type (`Ticket`, `User`, `Category`, `Invitation`). */
  class EntityStore {
    var records: map<string, Record>

    constructor (initial: map<string, Record>)
      ensures records == initial
    {
      records := initial;
    }

    /** `E.update(id, patch)`: fails on a failed call or an unknown id; otherwise only record `id` changes. */
    method Update(id: string, patch: Record, ok: bool) returns (success: bool)
      modifies this
      ensures success <==> ok && id in old(records)
      ensures records == if success then old(records)[id := Patched(old(records)[id], patch)] else old(records)
    {
      success := ok && id in records;
      if success {
        records := records[id := Patched(records[id], patch)];
      }
    }

    /**
     * `E.create(fields)`: the service picks `freshId`; a failed call, or an id
     * already in use, leaves the store as it was.
     */
    method Create(fields: Record, ok: bool, freshId: string) returns (id: Option<string>)
      modifies this
      ensures id.Some? <==> ok && freshId !in old(records)
      ensures id.Some? ==> id.value == freshId && records == old(records)[freshId := fields]
      ensures id.None? ==> records == old(records)
    {
      if ok && freshId !in records {
        records := records[freshId := fields];
        id := Some(freshId);
      } else {
        id := None;
      }
    }
  }

  /** One call of `SendEmail`, and whether it succeeded. */
  datatype Delivery = Delivery(email: Email, delivered: bool)

  /** Every email the desk attempted to send, in order. */
  class Outbox {
    var attempts: seq<Delivery>

    constructor ()
      ensures attempts == []
    {
      attempts := [];
    }

    /** `SendEmail(e)`: recorded as attempted whatever its outcome. */
    method Send(e: Email, ok: bool) returns (delivered: bool)
      modifies this
      ensures delivered == ok
      ensures attempts == old(attempts) + [Delivery(e, ok)]
    {
      attempts := attempts + [Delivery(e, ok)];
      delivered := ok;
    }
  }
}
