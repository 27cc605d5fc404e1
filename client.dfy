/** The local Eight Sleep client (custom_components/eight_sleep_local/local_eight_sleep.py):
    an HTTP session it may or may not own, and a rolling history of the status
    documents the device returned, newest first. */
module Client {
  import opened Json

  /** The history keeps at most this many documents. */
  const MaxHistory: nat := 10

  /** Constructor defaults, shared with the sensor platform's setup. */
  const DefaultHost: string := "localhost"
  const DefaultPort: int := 8080

  /** What one GET of /api/deviceStatus came back with: a response with a
      status code and its parsed body, or a transport failure (refused
      connection, timeout, client error). */
  datatype Fetch = Response(status: int, body: Json) | NetError

  function Min(a: int, b: int): int { if a <= b then a else b }

  /** The first `n` elements of `s`, or all of `s` when it is shorter (`s[:n]`). */
  function Take<T>(s: seq<T>, n: nat): (r: seq<T>)
    ensures |r| == Min(|s|, n)
    ensures forall i :: 0 <= i < |r| ==> r[i] == s[i]
  {
    if |s| > n then s[..n] else s
  }

  /** The history after `d` is recorded: `d` in front, and only the newest
      `MaxHistory` documents kept. */
  function Pushed(h: seq<Json>, d: Json): (r: seq<Json>)
    ensures |r| == Min(|h| + 1, MaxHistory)
    ensures r[0] == d
    ensures forall i :: 0 <= i < |r| - 1 ==> r[i + 1] == h[i]
  {
    Take([d] + h, MaxHistory)
  }

  /** The history after recording the documents of `ds`, oldest first. */
  function PushAll(h: seq<Json>, ds: seq<Json>): seq<Json>
    decreases |ds|
  {
    if ds == [] then h else PushAll(Pushed(h, ds[0]), ds[1..])
  }

  function Reverse<T>(s: seq<T>): (r: seq<T>)
    ensures |r| == |s|
  {
    if s == [] then [] else Reverse(s[1..]) + [s[0]]
  }

  lemma TakeOfTake<T>(a: seq<T>, b: seq<T>, n: nat)
    ensures Take(a + Take(b, n), n) == Take(a + b, n)
  {
    var l, r := Take(a + Take(b, n), n), Take(a + b, n);
    assert |l| == |r|;
    forall i | 0 <= i < |l| ensures l[i] == r[i] {
      if i >= |a| {
        assert l[i] == Take(b, n)[i - |a|];
      }
    }
  }

  /** However many documents are recorded, the history holds the newest
      `MaxHistory` of them and of what it held before, newest first. */
  lemma {:induction false} PushAllNewestFirst(h: seq<Json>, ds: seq<Json>)
    requires |h| <= MaxHistory
    ensures PushAll(h, ds) == Take(Reverse(ds) + h, MaxHistory)
    decreases |ds|
  {
    if ds != [] {
      var h' := Pushed(h, ds[0]);
      PushAllNewestFirst(h', ds[1..]);
      TakeOfTake(Reverse(ds[1..]), [ds[0]] + h, MaxHistory);
      assert Reverse(ds[1..]) + ([ds[0]] + h) == Reverse(ds) + h;
    }
  }

  /** From an empty history, `n` recorded documents leave `min(n, 10)` of them,
      the last one recorded first. */
  lemma HistoryAfterFetches(ds: seq<Json>)
    ensures PushAll([], ds) == Take(Reverse(ds), MaxHistory)
    ensures |PushAll([], ds)| == Min(|ds|, MaxHistory)
    ensures ds != [] ==> PushAll([], ds)[0] == ds[|ds| - 1]
  {
    PushAllNewestFirst([], ds);
    assert Reverse(ds) + [] == Reverse(ds);
    if ds != [] {
      assert Reverse(ds) == Reverse(ds[1..]) + [ds[0]];
      ReverseFirst(ds);
    }
  }

  lemma {:induction false} ReverseFirst<T>(s: seq<T>)
    requires s != []
    ensures Reverse(s)[0] == s[|s| - 1]
  {
    if |s| > 1 {
      ReverseFirst(s[1..]);
    }
  }

  /** Three documents recorded in the order s1, s2, s3 read back as [s3, s2, s1]. */
  lemma ThreeFetchesNewestFirst(s1: Json, s2: Json, s3: Json)
    ensures PushAll([], [s1, s2, s3]) == [s3, s2, s1]
  {
    HistoryAfterFetches([s1, s2, s3]);
    assert [s1, s2, s3][1..] == [s2, s3];
    assert [s2, s3][1..] == [s3];
    assert Reverse([s1, s2, s3]) == [s3, s2, s1];
  }

  /** The bodies of the 200 responses among `fs`, in the order they came. */
  function Recorded(fs: seq<Fetch>): (ds: seq<Json>)
    ensures |ds| <= |fs|
  {
    if fs == [] then []
    else if fs[0].Response? && fs[0].status == 200 then [fs[0].body] + Recorded(fs[1..])
    else Recorded(fs[1..])
  }

  /** The `aiohttp.ClientSession` handle: all the client relies on is that
      closing it marks it closed. */
  class Session {
    var closed: bool

    constructor ()
      ensures !closed
    {
      closed := false;
    }

    method Close()
      modifies this
      ensures closed
    {
      closed := true;
    }
  }

  class LocalEightSleep {
    const host: string
    const port: int
    /** `_api_session`; `null` is Python's `None`. */
    var session: Session?
    /** `_internal_session`: this client created `session` and must close it. */
    var internal: bool
    /** `_device_json_list`: the history, newest first. */
    var deviceJsonList: seq<Json>

    ghost predicate Valid()
      reads this
    {
      |deviceJsonList| <= MaxHistory
    }

    /** A client that has fetched nothing and owns no session; `clientSession`
        is a session supplied (and owned) by the caller, or `null`. */
    constructor (host: string, port: int, clientSession: Session?)
      ensures Valid()
      ensures this.host == host && this.port == port
      ensures session == clientSession && !internal
      ensures deviceJsonList == []
    {
      this.host := host;
      this.port := port;
      session := clientSession;
      internal := false;
      deviceJsonList := [];
    }

    /** `start`: creates a session, and takes ownership of it, only when none
        is present; an externally supplied session is left alone. Always
        succeeds. */
    method Start() returns (ok: bool)
      modifies this`session, this`internal
      ensures ok
      ensures session != null
      ensures old(session) == null ==> fresh(session) && !session.closed && internal
      ensures old(session) != null ==> session == old(session) && internal == old(internal)
    {
      if session == null {
        session := new Session();
        internal := true;
      }
      return true;
    }

    /** `stop`: closes and drops the session only when this client owns it and
        still holds it; otherwise nothing changes. Afterwards an owned session
        is gone, so a second `Stop` changes nothing. */
    method Stop()
      modifies this`session, session
      ensures old(internal && session != null) ==> session == null && old(session).closed
      ensures !old(internal && session != null) ==>
                session == old(session) && (session != null ==> session.closed == old(session.closed))
      ensures internal ==> session == null
    {
      if internal && session != null {
        session.Close();
        session := null;
      }
    }

    /** `update_device_data`, with the network round-trip given as `fetch`: a
        200 response records its body; any other status, or a transport
        failure, leaves the history as it was. The session must exist. */
    method UpdateDeviceData(fetch: Fetch)
      requires Valid()
      requires session != null
      modifies this`deviceJsonList
      ensures Valid()
      ensures fetch.Response? && fetch.status == 200 ==>
                deviceJsonList == Pushed(old(deviceJsonList), fetch.body)
      ensures !(fetch.Response? && fetch.status == 200) ==> deviceJsonList == old(deviceJsonList)
    {
      match fetch
      case NetError =>
      case Response(status, body) =>
        if status != 200 {
          return;
        }
        HandleDeviceJson(body);
    }

    /** A run of refreshes, one `update_device_data` per element of `fs`:
        the history ends up as if exactly the 200 bodies had been recorded in
        order, so `PushAllNewestFirst` says what it holds. */
    method UpdateAll(fs: seq<Fetch>)
      requires Valid()
      requires session != null
      modifies this`deviceJsonList
      ensures Valid()
      ensures deviceJsonList == PushAll(old(deviceJsonList), Recorded(fs))
      ensures deviceJsonList == Take(Reverse(Recorded(fs)) + old(deviceJsonList), MaxHistory)
    {
      PushAllNewestFirst(deviceJsonList, Recorded(fs));
      var i := 0;
      while i < |fs|
        invariant 0 <= i <= |fs|
        invariant Valid()
        invariant PushAll(deviceJsonList, Recorded(fs[i..])) == PushAll(old(deviceJsonList), Recorded(fs))
      {
        assert fs[i..][1..] == fs[i + 1..];
        var rest := Recorded(fs[i + 1..]);
        if fs[i].Response? && fs[i].status == 200 {
          assert ([fs[i].body] + rest)[1..] == rest;
        }
        UpdateDeviceData(fs[i]);
        i := i + 1;
      }
      assert fs[i..] == [];
    }

    /** `handle_device_json`: insert at the front, then keep the first ten. */
    method HandleDeviceJson(data: Json)
      requires Valid()
      modifies this`deviceJsonList
      ensures Valid()
      ensures deviceJsonList == Pushed(old(deviceJsonList), data)
    {
      deviceJsonList := [data] + deviceJsonList;
      if |deviceJsonList| > MaxHistory {
        deviceJsonList := deviceJsonList[..MaxHistory];
      }
    }

    /** `device_data`: the newest document, or `{}` before the first one. */
    function DeviceData(): (r: Json)
      reads this
      ensures deviceJsonList != [] ==> r == deviceJsonList[0]
      ensures deviceJsonList == [] ==> r == EmptyObject
    {
      if |deviceJsonList| > 0 then deviceJsonList[0] else EmptyObject
    }

    /** `device_data_history`: the whole history, newest first, never more than ten. */
    function DeviceDataHistory(): (r: seq<Json>)
      reads this
      requires Valid()
      ensures |r| <= MaxHistory
      ensures r == deviceJsonList
    {
      deviceJsonList
    }

    /** `key` is absent from the newest document, or there is none yet. */
    predicate RootMissing(key: string)
      reads this
    {
      deviceJsonList == [] || (deviceJsonList[0].JObj? && key !in deviceJsonList[0].fields)
    }

    /** `side` or its `key` is absent from the newest document, or there is none yet. */
    predicate SideMissing(side: string, key: string)
      reads this
    {
      || deviceJsonList == []
      || (var d := deviceJsonList[0];
          d.JObj? && (side !in d.fields || (d.fields[side].JObj? && key !in d.fields[side].fields)))
    }

    /** `device_data.get(key, default)`. */
    function RootField(key: string, default: Json): (r: Outcome<Json>)
      reads this
      ensures RootMissing(key) ==> r == Ok(default)
      ensures deviceJsonList != [] && deviceJsonList[0].JObj? && key in deviceJsonList[0].fields ==>
                r == Ok(deviceJsonList[0].fields[key])
      ensures deviceJsonList != [] && !deviceJsonList[0].JObj? ==> r == Raises(AttributeError)
    {
      Get(DeviceData(), key, default)
    }

    /** `device_data.get(side, {}).get(key, default)`. */
    function SideField(side: string, key: string, default: Json): (r: Outcome<Json>)
      reads this
      ensures SideMissing(side, key) ==> r == Ok(default)
      ensures deviceJsonList != [] && deviceJsonList[0].JObj? && side in deviceJsonList[0].fields
              && deviceJsonList[0].fields[side].JObj? && key in deviceJsonList[0].fields[side].fields ==>
                r == Ok(deviceJsonList[0].fields[side].fields[key])
      ensures r.Raises? <==>
                deviceJsonList != [] && (!deviceJsonList[0].JObj? ||
                  (side in deviceJsonList[0].fields && !deviceJsonList[0].fields[side].JObj?))
    {
      GetIn(DeviceData(), side, key, default)
    }

    function IsPriming(): (r: Outcome<Json>)
      reads this
      ensures RootMissing("isPriming") ==> r == Ok(JBool(false))
    {
      RootField("isPriming", JBool(false))
    }

    /** The raw `waterLevel` value, not coerced to a boolean. */
    function WaterLevel(): (r: Outcome<Json>)
      reads this
      ensures RootMissing("waterLevel") ==> r == Ok(JStr("false"))
    {
      RootField("waterLevel", JStr("false"))
    }

    function LeftCurrentTempF(): (r: Outcome<Json>)
      reads this
      ensures SideMissing("left", "currentTemperatureF") ==> r == Ok(JNull)
    {
      SideField("left", "currentTemperatureF", JNull)
    }

    function LeftTargetTempF(): (r: Outcome<Json>)
      reads this
      ensures SideMissing("left", "targetTemperatureF") ==> r == Ok(JNull)
    {
      SideField("left", "targetTemperatureF", JNull)
    }

    function LeftSecondsRemaining(): (r: Outcome<Json>)
      reads this
      ensures SideMissing("left", "secondsRemaining") ==> r == Ok(JNull)
    {
      SideField("left", "secondsRemaining", JNull)
    }

    function LeftIsAlarmVibrating(): (r: Outcome<Json>)
      reads this
      ensures SideMissing("left", "isAlarmVibrating") ==> r == Ok(JBool(false))
    {
      SideField("left", "isAlarmVibrating", JBool(false))
    }

    function LeftIsOn(): (r: Outcome<Json>)
      reads this
      ensures SideMissing("left", "isOn") ==> r == Ok(JBool(false))
    {
      SideField("left", "isOn", JBool(false))
    }

    function RightCurrentTempF(): (r: Outcome<Json>)
      reads this
      ensures SideMissing("right", "currentTemperatureF") ==> r == Ok(JNull)
    {
      SideField("right", "currentTemperatureF", JNull)
    }

    function RightTargetTempF(): (r: Outcome<Json>)
      reads this
      ensures SideMissing("right", "targetTemperatureF") ==> r == Ok(JNull)
    {
      SideField("right", "targetTemperatureF", JNull)
    }

    function RightSecondsRemaining(): (r: Outcome<Json>)
      reads this
      ensures SideMissing("right", "secondsRemaining") ==> r == Ok(JNull)
    {
      SideField("right", "secondsRemaining", JNull)
    }

    function RightIsAlarmVibrating(): (r: Outcome<Json>)
      reads this
      ensures SideMissing("right", "isAlarmVibrating") ==> r == Ok(JBool(false))
    {
      SideField("right", "isAlarmVibrating", JBool(false))
    }

    function RightIsOn(): (r: Outcome<Json>)
      reads this
      ensures SideMissing("right", "isOn") ==> r == Ok(JBool(false))
    {
      SideField("right", "isOn", JBool(false))
    }

    function SensorLabel(): (r: Outcome<Json>)
      reads this
      ensures RootMissing("sensorLabel") ==> r == Ok(JStr(""))
    {
      RootField("sensorLabel", JStr(""))
    }

    function Settings(): (r: Outcome<Json>)
      reads this
      ensures RootMissing("settings") ==> r == Ok(EmptyObject)
    {
      RootField("settings", EmptyObject)
    }
  }
}
