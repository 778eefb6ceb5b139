/** The coordinate selection store: per dataset id, the last click reported for
    it (pixel position, map size, bounding box, station). */
module Coordinates {
  import opened Js
  import opened Numbers

  /** An action payload or a stored record: a plain object's fields. */
  type Record = map<string, JsValue>

  /** `const { id, ...coords } = payload`: the id (`undefined` when absent). */
  function PayloadId(payload: Record): (id: JsValue)
    ensures "id" !in payload ==> id == JUndefined
  {
    if "id" in payload then payload["id"] else JUndefined
  }

  /** The rest of the payload, without its id. */
  function Coords(payload: Record): (c: Record)
    ensures "id" !in c
    ensures forall f :: f in c <==> f in payload && f != "id"
    ensures forall f :: f in c ==> c[f] == payload[f]
  {
    payload - {"id"}
  }

  /** The property key the id selects: object keys are strings. */
  function Key(id: JsValue): (k: string)
    ensures id.JStr? ==> k == id.s
    ensures id.JNum? ==> k == IntToString(id.n)
  {
    ToJsString(id)
  }

  /** The reducer on values: a truthy id stores the payload's other fields
      under its key; a falsy one changes nothing. */
  function SetCoordinatesState(coordinates: map<string, Record>, payload: Record): (c: map<string, Record>)
    ensures !Truthy(PayloadId(payload)) ==> c == coordinates
    ensures Truthy(PayloadId(payload)) ==>
      var k := Key(PayloadId(payload));
      k in c && c[k] == Coords(payload) &&
      (forall j :: j != k ==> (j in c <==> j in coordinates) && (j in c ==> c[j] == coordinates[j]))
  {
    var id := PayloadId(payload);
    if Truthy(id) then coordinates[Key(id) := Coords(payload)] else coordinates
  }

  /** A run of actions. */
  function Replay(coordinates: map<string, Record>, payloads: seq<Record>): map<string, Record>
    decreases |payloads|
  {
    if |payloads| == 0 then coordinates
    else SetCoordinatesState(Replay(coordinates, payloads[..|payloads| - 1]), payloads[|payloads| - 1])
  }

  /** The last payload dispatched for key `k`, if any. */
  function LastFor(payloads: seq<Record>, k: string): (p: Option<Record>)
    ensures p.Some? ==> p.value in payloads && Truthy(PayloadId(p.value)) && Key(PayloadId(p.value)) == k
    decreases |payloads|
  {
    if |payloads| == 0 then None
    else
      var last := payloads[|payloads| - 1];
      if Truthy(PayloadId(last)) && Key(PayloadId(last)) == k then Some(last)
      else
        var earlier := LastFor(payloads[..|payloads| - 1], k);
        assert earlier.Some? ==> earlier.value in payloads by {
          if earlier.Some? {
            var i :| 0 <= i < |payloads| - 1 && payloads[..|payloads| - 1][i] == earlier.value;
            assert payloads[i] == earlier.value;
          }
        }
        earlier
  }

  /** After any run of actions, the record under `k` is the last payload
      dispatched for `k`, without its id; with none, it is the initial one. */
  lemma {:induction false} ReplayLast(coordinates: map<string, Record>, payloads: seq<Record>, k: string)
    ensures var c := Replay(coordinates, payloads);
      var p := LastFor(payloads, k);
      (p.Some? ==> k in c && c[k] == Coords(p.value)) &&
      (p.None? ==> (k in c <==> k in coordinates) && (k in c ==> c[k] == coordinates[k]))
    decreases |payloads|
  {
    if |payloads| > 0 {
      ReplayLast(coordinates, payloads[..|payloads| - 1], k);
    }
  }

  /** The `state.coordinates` object the Immer reducer assigns into. */
  class CoordinateState {
    var coordinates: map<string, Record>

    constructor ()
      ensures coordinates == map[]
    {
      coordinates := map[];
    }

    /** `setCoordinates`. */
    method SetCoordinates(payload: Record)
      modifies this
      ensures coordinates == SetCoordinatesState(old(coordinates), payload)
    {
      var id := PayloadId(payload);
      if Truthy(id) {
        coordinates := coordinates[Key(id) := Coords(payload)];
      }
    }
  }

  /** The falsy ids the client meets are all ignored. */
  lemma FalsyIdsIgnored(coordinates: map<string, Record>, payload: Record)
    requires "id" !in payload || payload["id"] in [JNum(0), JNull, JUndefined, JStr("")]
    ensures SetCoordinatesState(coordinates, payload) == coordinates
  {
  }
}
