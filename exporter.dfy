/**
 * The metrics exporter: a cache of the sensor list and of each sensor's last
 * state, refreshed from the API client when it is older than the scrape
 * interval, and rendered into metric samples on every collection.
 *
 * The metrics channel is the sequence of samples a collection emits.
 */
module Exporter {
  import opened Wrappers
  import opened Client

  datatype MetricKind = Up | Online | LastUpdated | Temperature | Humidity | Battery

  /** One emitted sample: its metric, its gauge value and its label values. */
  datatype Metric = Metric(kind: MetricKind, value: real, labels: seq<string>)

  /**
   * The replies the upstream API gives during one refresh: the token and list
   * exchanges of the device-list call, and for the `i`-th listed device the
   * token and state exchanges of its state call.
   */
  datatype Upstream = Upstream(
    listToken: Reply<TokenResponse>,
    deviceList: Reply<DeviceListResponse>,
    stateToken: nat -> Reply<TokenResponse>,
    deviceState: nat -> Reply<DeviceStateResponse>)

  /** The liveness sample: 1 when the data could be served, 0 when the refresh failed. */
  function UpMetric(ok: bool): Metric {
    Metric(Up, if ok then 1.0 else 0.0, [])
  }

  /** The labels device_id, device_name and model. */
  function Labels(d: Device): seq<string> {
    [d.deviceId, d.name, d.modelName]
  }

  function Flag(b: bool): real {
    if b then 1.0 else 0.0
  }

  predicate IsReading(k: MetricKind) {
    k == Temperature || k == Humidity || k == Battery
  }

  /**
   * The samples of one device that has a state: online status, the report
   * time when `reportAt` parses, and the three readings when online.
   * `parseTime` is RFC 3339 parsing (section 5.6 of RFC 3339) to Unix seconds.
   */
  function DeviceMetrics(d: Device, s: DeviceStateResponse, parseTime: string -> Option<int>): seq<Metric>
  {
    var labels := Labels(d);
    [Metric(Online, Flag(s.data.online), labels)]
    + (match parseTime(s.data.reportAt)
       case Some(t) => [Metric(LastUpdated, t as real, labels)]
       case None => [])
    + (if s.data.online then
         [Metric(Temperature, s.data.state.temperature, labels),
          Metric(Humidity, s.data.state.humidity, labels),
          Metric(Battery, s.data.state.battery as real, labels)]
       else [])
  }

  /**
   * The shape of one device's samples: one online sample first and no other;
   * all labelled by the device; a report-time sample exactly when `reportAt`
   * parses; no readings when offline, and temperature, humidity and battery
   * last, in that order, when online.
   */
  lemma DeviceMetricsShape(d: Device, s: DeviceStateResponse, parseTime: string -> Option<int>)
    ensures var r := DeviceMetrics(d, s, parseTime);
      && 1 <= |r| <= 5
      && r[0] == Metric(Online, Flag(s.data.online), Labels(d))
      && (forall i :: 1 <= i < |r| ==> r[i].kind != Online)
      && (forall m :: m in r ==> m.labels == Labels(d) && m.kind != Up)
      && ((exists m :: m in r && m.kind == LastUpdated) <==> parseTime(s.data.reportAt).Some?)
      && (parseTime(s.data.reportAt).Some? ==>
            r[1] == Metric(LastUpdated, parseTime(s.data.reportAt).value as real, Labels(d)))
      && (!s.data.online ==> forall m :: m in r ==> !IsReading(m.kind))
      && (s.data.online ==>
            |r| >= 4 && r[|r| - 3..] == [Metric(Temperature, s.data.state.temperature, Labels(d)),
                                         Metric(Humidity, s.data.state.humidity, Labels(d)),
                                         Metric(Battery, s.data.state.battery as real, Labels(d))])
  {
  }

  /** The samples of one listed device: none when it has no state entry. */
  function Emitted(d: Device, states: map<string, DeviceStateResponse>, parseTime: string -> Option<int>): seq<Metric> {
    if d.deviceId in states then DeviceMetrics(d, states[d.deviceId], parseTime) else []
  }

  /** The samples of every device of `ds`, one device's `block` after the other. */
  function Blocks(ds: seq<Device>, block: Device -> seq<Metric>): seq<Metric>
    decreases |ds|
  {
    if ds == [] then [] else Blocks(ds[..|ds| - 1], block) + block(ds[|ds| - 1])
  }

  function Emitter(states: map<string, DeviceStateResponse>, parseTime: string -> Option<int>): Device -> seq<Metric> {
    d => Emitted(d, states, parseTime)
  }

  /** The device samples of a collection, in the order of the device list. */
  function DeviceSamples(ds: seq<Device>, states: map<string, DeviceStateResponse>,
                         parseTime: string -> Option<int>): seq<Metric>
  {
    Blocks(ds, Emitter(states, parseTime))
  }

  /** The identifiers of a device list. */
  function DeviceIds(ds: seq<Device>): set<string> {
    set d | d in ds :: d.deviceId
  }

  /**
   * The state map a refresh of `ds` has built once its first `|fetched|`
   * fetches returned `fetched`: each success stored under its device's
   * identifier, a later one overwriting an earlier one.
   */
  function StatesFrom(ds: seq<Device>, fetched: seq<Option<DeviceStateResponse>>): map<string, DeviceStateResponse>
    requires |fetched| <= |ds|
    decreases |fetched|
  {
    if fetched == [] then map[]
    else
      var n := |fetched| - 1;
      var m := StatesFrom(ds, fetched[..n]);
      match fetched[n]
      case None => m
      case Some(s) => m[ds[n].deviceId := s]
  }

  /** The identifiers whose state fetch succeeded. */
  function FetchedIds(ds: seq<Device>, fetched: seq<Option<DeviceStateResponse>>): set<string>
    requires |fetched| <= |ds|
  {
    set i | 0 <= i < |fetched| && fetched[i].Some? :: ds[i].deviceId
  }

  /** What one state fetch contributes to the map: its state, or nothing when it failed. */
  function Fetched(r: Result<DeviceStateResponse, ClientError>): Option<DeviceStateResponse> {
    match r
    case Success(st) => Some(st)
    case Failure(_) => None
  }

  /**
   * The session the `i`-th state fetch of a refresh starts from, when the
   * first one starts from `s`: each fetch runs the session step on the
   * session the previous one left, so a token obtained for one device is
   * reused by the next.
   */
  function SessionAt(s: AuthSession, now: int, net: Upstream, i: nat): AuthSession
    decreases i
  {
    if i == 0 then s else SessionAfter(SessionAt(s, now, net, i - 1), now, net.stateToken(i - 1))
  }

  /** What the `i`-th state fetch yields: the state call's outcome on the session it starts from. */
  function FetchAt(s: AuthSession, now: int, net: Upstream, i: nat): Option<DeviceStateResponse> {
    Fetched(StateOutcome(SessionAt(s, now, net, i), now, net.stateToken(i), net.deviceState(i)))
  }

  /** What the first `n` state fetches yield, in list order. */
  function Fetches(s: AuthSession, now: int, net: Upstream, n: nat): (r: seq<Option<DeviceStateResponse>>)
    ensures |r| == n
    decreases n
  {
    if n == 0 then [] else Fetches(s, now, net, n - 1) + [FetchAt(s, now, net, n - 1)]
  }

  /** The requests the first `n` state fetches of a refresh of `ds` attempt. */
  function FetchRequests(apiKey: string, secret: string, s: AuthSession, now: int, net: Upstream,
                         ds: seq<Device>, n: nat): seq<Request>
    requires n <= |ds|
    decreases n
  {
    if n == 0 then []
    else
      var i := n - 1;
      FetchRequests(apiKey, secret, s, now, net, ds, i)
      + CallRequests(SessionAt(s, now, net, i), now, apiKey, secret, net.stateToken(i),
                     StateMethod, ds[i].deviceId, ds[i].token)
  }

  // ---------------------------------------------------------------------------
  // Go's durations: signed 64-bit counts of nanoseconds

  const NanosPerSecond: int := 1_000_000_000
  const MinDuration: int := -0x8000_0000_0000_0000
  const MaxDuration: int := 0x7fff_ffff_ffff_ffff
  const Modulus64: int := 0x1_0000_0000_0000_0000

  /** Two's-complement wrap-around of a 64-bit multiplication's exact result. */
  function Wrap64(x: int): (r: int)
    ensures MinDuration <= r <= MaxDuration
    ensures MinDuration <= x <= MaxDuration ==> r == x
    ensures (x - r) % Modulus64 == 0
  {
    (x - MinDuration) % Modulus64 + MinDuration
  }

  /** `time.Since(start)` at `now`: the elapsed nanoseconds, saturated at the bounds of a duration. */
  function Since(now: int, start: int): (d: int)
    ensures MinDuration <= d <= MaxDuration
    ensures MinDuration <= (now - start) * NanosPerSecond <= MaxDuration ==> d == (now - start) * NanosPerSecond
    ensures (now - start) * NanosPerSecond > MaxDuration ==> d == MaxDuration
    ensures (now - start) * NanosPerSecond < MinDuration ==> d == MinDuration
  {
    var exact := (now - start) * NanosPerSecond;
    if exact > MaxDuration then MaxDuration else if exact < MinDuration then MinDuration else exact
  }

  /** `time.Duration(interval) * time.Second`, which wraps around. */
  function IntervalDuration(interval: int): int {
    Wrap64(interval * NanosPerSecond)
  }

  /** A refresh is due when the time since the last one exceeds the interval, strictly. */
  predicate Stale(now: int, lastScrape: int, interval: int) {
    Since(now, lastScrape) > IntervalDuration(interval)
  }

  class YoLinkExporter {
    const client: YoLinkClient
    var lastScrape: int
    var devices: seq<Device>
    var deviceStates: map<string, DeviceStateResponse>

    /** Every cached state belongs to a device of the cached list. */
    ghost predicate Valid()
      reads this
    {
      deviceStates.Keys <= DeviceIds(devices)
    }

    constructor (client: YoLinkClient)
      ensures Valid()
      ensures this.client == client
      ensures lastScrape == ZeroTime && devices == [] && deviceStates == map[]
    {
      this.client := client;
      lastScrape := ZeroTime;
      devices := [];
      deviceStates := map[];
    }

    /**
     * Replaces the device list and rebuilds the state map from one state
     * fetch per listed device; a failed fetch leaves its device out. Fails
     * only when the list itself cannot be fetched, and then leaves the cache
     * as it was.
     */
    method RefreshData(now: int, net: Upstream) returns (err: Option<ClientError>)
      requires Valid()
      modifies this`devices, this`deviceStates, client
      ensures Valid()
      ensures var s0 := old(client.Session());
        var s1 := SessionAfter(s0, now, net.listToken);
        var listSent := old(client.sent) + CallRequests(s0, now, client.apiKey, client.secret, net.listToken, ListMethod, "", "");
        match DevicesOutcome(s0, now, net.listToken, net.deviceList)
        case Failure(e) =>
          && err == Some(e) && devices == old(devices) && deviceStates == old(deviceStates)
          && client.Session() == s1 && client.sent == listSent
        case Success(listed) =>
          && err == None && devices == listed && deviceStates == StatesFrom(listed, Fetches(s1, now, net, |listed|))
          && client.Session() == SessionAt(s1, now, net, |listed|)
          && client.sent == listSent + FetchRequests(client.apiKey, client.secret, s1, now, net, listed, |listed|)
    {
      var list := client.GetDevices(now, net.listToken, net.deviceList);
      if list.Failure? {
        return Some(list.error);
      }
      devices := list.value;
      FetchStates(devices, now, net);
      StatesFromKeys(devices, Fetches(SessionAfter(old(client.Session()), now, net.listToken), now, net, |devices|));
      err := None;
    }

    /**
     * The loop of a refresh: one state fetch per listed device, in list order,
     * each success stored under its device's identifier in a new map.
     */
    method FetchStates(listed: seq<Device>, now: int, net: Upstream)
      modifies this`deviceStates, client
      ensures var s := old(client.Session());
        && deviceStates == StatesFrom(listed, Fetches(s, now, net, |listed|))
        && client.Session() == SessionAt(s, now, net, |listed|)
        && client.sent == old(client.sent) + FetchRequests(client.apiKey, client.secret, s, now, net, listed, |listed|)
    {
      ghost var s0, sent0 := client.Session(), client.sent;
      deviceStates := map[];
      ghost var fetched: seq<Option<DeviceStateResponse>> := [];
      ghost var requests: seq<Request> := [];
      for i := 0 to |listed|
        invariant fetched == Fetches(s0, now, net, i)
        invariant client.Session() == SessionAt(s0, now, net, i)
        invariant requests == FetchRequests(client.apiKey, client.secret, s0, now, net, listed, i)
        invariant client.sent == sent0 + requests
        invariant deviceStates == StatesFrom(listed, fetched)
      {
        ghost var session := client.Session();
        var state := client.GetDeviceState(listed[i], now, net.stateToken(i), net.deviceState(i));
        ghost var call := CallRequests(session, now, client.apiKey, client.secret, net.stateToken(i),
                                       StateMethod, listed[i].deviceId, listed[i].token);
        assert client.sent == sent0 + (requests + call);
        requests := requests + call;
        if state.Failure? {
          StatesFromSnoc(listed, fetched, None);
          fetched := fetched + [None];
          continue;
        }
        StatesFromSnoc(listed, fetched, Some(state.value));
        deviceStates := deviceStates[listed[i].deviceId := state.value];
        fetched := fetched + [Some(state.value)];
      }
    }

    /**
     * One scrape: refresh when the cache is stale, then emit `up` and the
     * samples of every cached device that has a cached state.
     */
    method Collect(now: int, interval: int, net: Upstream, parseTime: string -> Option<int>) returns (out: seq<Metric>)
      requires Valid()
      modifies this`lastScrape, this`devices, this`deviceStates, client
      ensures Valid()
      ensures !Stale(now, old(lastScrape), interval) ==>
        && unchanged(this) && unchanged(client)
        && out == [UpMetric(true)] + DeviceSamples(devices, deviceStates, parseTime)
      ensures Stale(now, old(lastScrape), interval) ==>
        match DevicesOutcome(old(client.Session()), now, net.listToken, net.deviceList)
        case Failure(_) =>
          && out == [UpMetric(false)]
          && lastScrape == old(lastScrape) && devices == old(devices) && deviceStates == old(deviceStates)
          && client.Session() == SessionAfter(old(client.Session()), now, net.listToken)
          && client.sent == old(client.sent) + CallRequests(old(client.Session()), now, client.apiKey, client.secret,
                                                            net.listToken, ListMethod, "", "")
        case Success(listed) =>
          var s1 := SessionAfter(old(client.Session()), now, net.listToken);
          && lastScrape == now && devices == listed && deviceStates == StatesFrom(listed, Fetches(s1, now, net, |listed|))
          && client.Session() == SessionAt(s1, now, net, |listed|)
          && client.sent == old(client.sent) + CallRequests(old(client.Session()), now, client.apiKey, client.secret,
                                                            net.listToken, ListMethod, "", "")
                            + FetchRequests(client.apiKey, client.secret, s1, now, net, listed, |listed|)
          && out == [UpMetric(true)] + DeviceSamples(devices, deviceStates, parseTime)
    {
      if Since(now, lastScrape) > IntervalDuration(interval) {
        var err := RefreshData(now, net);
        if err.Some? {
          out := [UpMetric(false)];
          return;
        }
        lastScrape := now;
      }

      var samples := EmitDeviceMetrics(parseTime);
      out := [UpMetric(true)] + samples;
    }

    /** The per-device part of a collection: the samples of every cached device with a cached state, in list order. */
    method EmitDeviceMetrics(parseTime: string -> Option<int>) returns (out: seq<Metric>)
      ensures out == DeviceSamples(devices, deviceStates, parseTime)
    {
      out := [];
      for i := 0 to |devices|
        invariant out == DeviceSamples(devices[..i], deviceStates, parseTime)
      {
        SamplesSnoc(devices, i, deviceStates, parseTime);
        var device := devices[i];
        if device.deviceId !in deviceStates {
          continue;
        }
        var state := deviceStates[device.deviceId];
        var labels := [device.deviceId, device.name, device.modelName];
        var block: seq<Metric> := [];

        var onlineValue := 0.0;
        if state.data.online {
          onlineValue := 1.0;
        }
        block := block + [Metric(Online, onlineValue, labels)];
        assert block == [Metric(Online, Flag(state.data.online), Labels(device))];

        match parseTime(state.data.reportAt) {
          case Some(reportAt) =>
            block := block + [Metric(LastUpdated, reportAt as real, labels)];
          case None =>
        }
        ghost var reported := block;

        if state.data.online {
          block := block + [Metric(Temperature, state.data.state.temperature, labels)];
          block := block + [Metric(Humidity, state.data.state.humidity, labels)];
          block := block + [Metric(Battery, state.data.state.battery as real, labels)];
        }
        assert block == DeviceMetrics(device, state, parseTime) by {
          DeviceMetricsParts(device, state, parseTime, reported, block);
        }
        out := out + block;
      }
      assert devices[..|devices|] == devices;
    }
  }

  // ---------------------------------------------------------------------------
  // Proof steps of the emission loop

  lemma SamplesSnoc(ds: seq<Device>, i: nat, states: map<string, DeviceStateResponse>,
                    parseTime: string -> Option<int>)
    requires i < |ds|
    ensures DeviceSamples(ds[..i + 1], states, parseTime)
         == DeviceSamples(ds[..i], states, parseTime) + Emitted(ds[i], states, parseTime)
  {
    assert ds[..i + 1][..i] == ds[..i];
  }

  /** The loop builds a device's samples in three steps: online, report time, readings. */
  lemma DeviceMetricsParts(d: Device, s: DeviceStateResponse, parseTime: string -> Option<int>,
                           reported: seq<Metric>, block: seq<Metric>)
    requires reported == [Metric(Online, Flag(s.data.online), Labels(d))]
      + (match parseTime(s.data.reportAt)
         case Some(t) => [Metric(LastUpdated, t as real, Labels(d))]
         case None => [])
    requires block == reported
      + (if s.data.online then
           [Metric(Temperature, s.data.state.temperature, Labels(d)),
            Metric(Humidity, s.data.state.humidity, Labels(d)),
            Metric(Battery, s.data.state.battery as real, Labels(d))]
         else [])
    ensures block == DeviceMetrics(d, s, parseTime)
  {
  }

  // ---------------------------------------------------------------------------
  // Properties of the refresh fold

  /** One more fetch adds its state, if any, under its device's identifier. */
  lemma StatesFromSnoc(ds: seq<Device>, fetched: seq<Option<DeviceStateResponse>>, next: Option<DeviceStateResponse>)
    requires |fetched| < |ds|
    ensures StatesFrom(ds, fetched + [next])
         == match next
            case None => StatesFrom(ds, fetched)
            case Some(s) => StatesFrom(ds, fetched)[ds[|fetched|].deviceId := s]
  {
    assert (fetched + [next])[..|fetched|] == fetched;
  }

  /** The state map holds exactly the identifiers whose fetch succeeded, all of them listed. */
  lemma {:induction false} StatesFromKeys(ds: seq<Device>, fetched: seq<Option<DeviceStateResponse>>)
    requires |fetched| <= |ds|
    ensures StatesFrom(ds, fetched).Keys == FetchedIds(ds, fetched)
    ensures FetchedIds(ds, fetched) <= DeviceIds(ds)
    decreases |fetched|
  {
    if fetched != [] {
      var n := |fetched| - 1;
      StatesFromKeys(ds, fetched[..n]);
      var prior := FetchedIds(ds, fetched[..n]);
      var here := if fetched[n].Some? then {ds[n].deviceId} else {};
      assert FetchedIds(ds, fetched) == prior + here by {
        forall id | id in FetchedIds(ds, fetched) ensures id in prior + here {
          var i :| 0 <= i < |fetched| && fetched[i].Some? && ds[i].deviceId == id;
          if i < n {
            assert fetched[..n][i] == fetched[i];
          }
        }
        forall id | id in prior ensures id in FetchedIds(ds, fetched) {
          var i :| 0 <= i < n && fetched[..n][i].Some? && ds[i].deviceId == id;
          assert fetched[i] == fetched[..n][i];
        }
      }
      forall id | id in FetchedIds(ds, fetched) ensures id in DeviceIds(ds) {
        var i :| 0 <= i < |fetched| && fetched[i].Some? && ds[i].deviceId == id;
        assert ds[i] in ds;
      }
    }
  }

  /** For every identifier, the state the map holds is the one of its last successful fetch. */
  lemma {:induction false} StatesFromLastWins(ds: seq<Device>, fetched: seq<Option<DeviceStateResponse>>, i: nat)
    requires |fetched| <= |ds|
    requires i < |fetched| && fetched[i].Some?
    requires forall j :: i < j < |fetched| && ds[j].deviceId == ds[i].deviceId ==> fetched[j].None?
    ensures ds[i].deviceId in StatesFrom(ds, fetched)
    ensures StatesFrom(ds, fetched)[ds[i].deviceId] == fetched[i].value
    decreases |fetched|
  {
    var n := |fetched| - 1;
    if i < n {
      forall j | i < j < n && ds[j].deviceId == ds[i].deviceId ensures fetched[..n][j].None? {
        assert fetched[..n][j] == fetched[j];
      }
      StatesFromLastWins(ds, fetched[..n], i);
    }
  }

  // ---------------------------------------------------------------------------
  // Properties of the state fetches

  /** The `i`-th of the fetches is what the `i`-th fetch yields, whatever fetches follow it. */
  lemma {:induction false} FetchesAt(s: AuthSession, now: int, net: Upstream, n: nat)
    ensures forall i :: 0 <= i < n ==> Fetches(s, now, net, n)[i] == FetchAt(s, now, net, i)
    decreases n
  {
    if n > 0 {
      FetchesAt(s, now, net, n - 1);
    }
  }

  /**
   * After a refresh, the state map holds exactly the identifiers of the listed
   * devices whose state call succeeded.
   */
  lemma RefreshedKeys(s: AuthSession, now: int, net: Upstream, ds: seq<Device>)
    ensures StatesFrom(ds, Fetches(s, now, net, |ds|)).Keys
         == set i | 0 <= i < |ds|
                    && StateOutcome(SessionAt(s, now, net, i), now, net.stateToken(i), net.deviceState(i)).Success?
                  :: ds[i].deviceId
  {
    var fetched := Fetches(s, now, net, |ds|);
    StatesFromKeys(ds, fetched);
    FetchesAt(s, now, net, |ds|);
    forall i | 0 <= i < |ds|
      ensures fetched[i].Some?
          <==> StateOutcome(SessionAt(s, now, net, i), now, net.stateToken(i), net.deviceState(i)).Success?
    {
      assert fetched[i] == FetchAt(s, now, net, i);
    }
  }

  /** From a valid session, no fetch changes the session. */
  lemma {:induction false} ValidSessionKeptAcross(s: AuthSession, now: int, net: Upstream, i: nat)
    requires TokenValid(s, now)
    ensures SessionAt(s, now, net, i) == s
    decreases i
  {
    if i > 0 {
      ValidSessionKeptAcross(s, now, net, i - 1);
    }
  }

  /** The state requests of the first `n` listed devices, each naming its device and bearing `token`. */
  function StateRequests(token: string, now: int, ds: seq<Device>, n: nat): (r: seq<Request>)
    requires n <= |ds|
    ensures |r| == n
    ensures forall i :: 0 <= i < n ==> r[i] == ApiRequest(StateMethod, now, ds[i].deviceId, ds[i].token, token)
    decreases n
  {
    if n == 0 then [] else StateRequests(token, now, ds, n - 1) + [ApiRequest(StateMethod, now, ds[n - 1].deviceId, ds[n - 1].token, token)]
  }

  /**
   * From a valid session, a refresh makes no token exchange: it sends exactly
   * one state request per listed device, in list order, each naming the
   * device and bearing the session's token, and each fetch yields that
   * device's state reply.
   */
  lemma {:induction false} ValidSessionFetches(apiKey: string, secret: string, s: AuthSession, now: int,
                                               net: Upstream, ds: seq<Device>, n: nat)
    requires TokenValid(s, now) && n <= |ds|
    ensures FetchRequests(apiKey, secret, s, now, net, ds, n) == StateRequests(s.accessToken, now, ds, n)
    ensures forall i :: 0 <= i < n ==> Fetches(s, now, net, n)[i] == Fetched(StateResult(net.deviceState(i)))
    decreases n
  {
    if n > 0 {
      ValidSessionFetches(apiKey, secret, s, now, net, ds, n - 1);
      ValidSessionKeptAcross(s, now, net, n - 1);
      FetchesAt(s, now, net, n);
      forall i | 0 <= i < n ensures Fetches(s, now, net, n)[i] == Fetched(StateResult(net.deviceState(i))) {
        ValidSessionKeptAcross(s, now, net, i);
      }
    }
  }

  // ---------------------------------------------------------------------------
  // Properties of the emitted samples

  /** The samples of a list are those of its parts, one after the other. */
  lemma {:induction false} BlocksAppend(a: seq<Device>, b: seq<Device>, block: Device -> seq<Metric>)
    ensures Blocks(a + b, block) == Blocks(a, block) + Blocks(b, block)
    decreases |b|
  {
    if b == [] {
      assert a + b == a;
    } else {
      var ab := a + b;
      assert ab[..|ab| - 1] == a + b[..|b| - 1];
      assert ab[|ab| - 1] == b[|b| - 1];
      BlocksAppend(a, b[..|b| - 1], block);
    }
  }

  /** The samples of a list are those of its parts, one after the other. */
  lemma SamplesAppend(a: seq<Device>, b: seq<Device>, states: map<string, DeviceStateResponse>,
                      parseTime: string -> Option<int>)
    ensures DeviceSamples(a + b, states, parseTime)
         == DeviceSamples(a, states, parseTime) + DeviceSamples(b, states, parseTime)
  {
    BlocksAppend(a, b, Emitter(states, parseTime));
  }

  /** Each listed device's samples form one block, in list position. */
  lemma SamplesBlock(ds: seq<Device>, i: nat, states: map<string, DeviceStateResponse>,
                     parseTime: string -> Option<int>)
    requires i < |ds|
    ensures DeviceSamples(ds, states, parseTime)
         == DeviceSamples(ds[..i], states, parseTime) + Emitted(ds[i], states, parseTime)
            + DeviceSamples(ds[i + 1..], states, parseTime)
  {
    assert ds == ds[..i + 1] + ds[i + 1..];
    SamplesAppend(ds[..i + 1], ds[i + 1..], states, parseTime);
    assert ds[..i + 1][..i] == ds[..i];
  }

  /** Every device sample is labelled by a listed device that has a state entry, and none is `up`. */
  lemma {:induction false} SamplesLabelled(ds: seq<Device>, states: map<string, DeviceStateResponse>,
                                           parseTime: string -> Option<int>)
    ensures forall m :: m in DeviceSamples(ds, states, parseTime) ==>
      m.kind != Up && exists d :: d in ds && d.deviceId in states && m.labels == Labels(d)
    decreases |ds|
  {
    if ds != [] {
      var n := |ds| - 1;
      SamplesLabelled(ds[..n], states, parseTime);
      forall m | m in DeviceSamples(ds, states, parseTime)
        ensures m.kind != Up && exists d :: d in ds && d.deviceId in states && m.labels == Labels(d)
      {
        if m in DeviceSamples(ds[..n], states, parseTime) {
          var d :| d in ds[..n] && d.deviceId in states && m.labels == Labels(d);
          assert d in ds;
        } else {
          assert ds[n] in ds;
          DeviceMetricsShape(ds[n], states[ds[n].deviceId], parseTime);
        }
      }
    }
  }

  /** The samples of kind `k`, in emission order. */
  function OfKind(ms: seq<Metric>, k: MetricKind): seq<Metric>
    decreases |ms|
  {
    if ms == [] then [] else (if ms[0].kind == k then [ms[0]] else []) + OfKind(ms[1..], k)
  }

  lemma {:induction false} OfKindAppend(a: seq<Metric>, b: seq<Metric>, k: MetricKind)
    ensures OfKind(a + b, k) == OfKind(a, k) + OfKind(b, k)
    decreases |a|
  {
    if a == [] {
      assert a + b == b;
    } else {
      assert (a + b)[0] == a[0] && (a + b)[1..] == a[1..] + b;
      OfKindAppend(a[1..], b, k);
    }
  }

  lemma {:induction false} OfKindNone(ms: seq<Metric>, k: MetricKind)
    requires forall m :: m in ms ==> m.kind != k
    ensures OfKind(ms, k) == []
    decreases |ms|
  {
    if ms != [] {
      assert forall m :: m in ms[1..] ==> m in ms;
      OfKindNone(ms[1..], k);
    }
  }

  /** An independent statement of the online samples: one per listed device with a state entry. */
  function OnlineSeries(ds: seq<Device>, states: map<string, DeviceStateResponse>): seq<Metric>
    decreases |ds|
  {
    if ds == [] then []
    else
      var d := ds[|ds| - 1];
      OnlineSeries(ds[..|ds| - 1], states)
      + (if d.deviceId in states then [Metric(Online, Flag(states[d.deviceId].data.online), Labels(d))] else [])
  }

  /** Every device with a state entry emits exactly one online sample (1 online, 0 offline), in list order. */
  lemma {:induction false} OnlineExactlyOnce(ds: seq<Device>, states: map<string, DeviceStateResponse>,
                                             parseTime: string -> Option<int>)
    ensures OfKind(DeviceSamples(ds, states, parseTime), Online) == OnlineSeries(ds, states)
    decreases |ds|
  {
    if ds != [] {
      var n := |ds| - 1;
      var d := ds[n];
      OnlineExactlyOnce(ds[..n], states, parseTime);
      OfKindAppend(DeviceSamples(ds[..n], states, parseTime), Emitted(d, states, parseTime), Online);
      if d.deviceId in states {
        var block := DeviceMetrics(d, states[d.deviceId], parseTime);
        DeviceMetricsShape(d, states[d.deviceId], parseTime);
        assert block == [block[0]] + block[1..];
        OfKindAppend([block[0]], block[1..], Online);
        assert OfKind([block[0]], Online) == [block[0]] + OfKind([], Online);
        forall m | m in block[1..] ensures m.kind != Online {
          var j :| 0 <= j < |block[1..]| && block[1..][j] == m;
          assert block[j + 1] == m;
        }
        OfKindNone(block[1..], Online);
      }
    }
  }

  /** Every collection that serves data emits exactly one `up` sample, and it comes first. */
  lemma UpExactlyOnce(ds: seq<Device>, states: map<string, DeviceStateResponse>, parseTime: string -> Option<int>)
    ensures OfKind([UpMetric(true)] + DeviceSamples(ds, states, parseTime), Up) == [UpMetric(true)]
  {
    SamplesLabelled(ds, states, parseTime);
    OfKindAppend([UpMetric(true)], DeviceSamples(ds, states, parseTime), Up);
    OfKindNone(DeviceSamples(ds, states, parseTime), Up);
    assert OfKind([UpMetric(true)], Up) == [UpMetric(true)] + OfKind([], Up);
  }

  // ---------------------------------------------------------------------------
  // Properties of the staleness decision

  /** A wrapped duration of whole seconds is even, so it never reaches the saturated maximum. */
  lemma IntervalBelowMax(interval: int)
    ensures IntervalDuration(interval) < MaxDuration
  {
    var k := interval * 500_000_000;
    var y := 2 * k - MinDuration;
    var t := y / Modulus64;
    assert y == Modulus64 * t + y % Modulus64;
    assert y % Modulus64 == 2 * (k + 0x4000_0000_0000_0000 - 0x8000_0000_0000_0000 * t);
    assert IntervalDuration(interval) == y % Modulus64 + MinDuration;
  }

  /**
   * A fresh exporter's first collection refreshes, for any clock after 1970
   * and any interval: the time since the zero time saturates at the largest
   * duration, which no interval reaches.
   */
  lemma FirstCollectRefreshes(now: int, interval: int)
    requires 0 <= now
    ensures Stale(now, ZeroTime, interval)
  {
    assert Since(now, ZeroTime) == MaxDuration;
    IntervalBelowMax(interval);
  }

  /**
   * A collection no more than `interval` seconds after the last refresh serves
   * the cache, for an interval whose nanoseconds fit a duration.
   */
  lemma WithinIntervalServesCache(lastScrape: int, now: int, interval: int)
    requires now <= lastScrape + interval
    requires 0 <= interval && interval * NanosPerSecond <= MaxDuration
    ensures !Stale(now, lastScrape, interval)
  {
  }

  /**
   * A collection strictly more than `interval` seconds after the last refresh
   * refreshes, for an interval whose nanoseconds fit a duration.
   */
  lemma BeyondIntervalRefreshes(lastScrape: int, now: int, interval: int)
    requires now > lastScrape + interval
    requires 0 <= interval && interval * NanosPerSecond <= MaxDuration
    ensures Stale(now, lastScrape, interval)
  {
  }

  /**
   * An interval of more than about 292 years wraps around to a negative
   * duration, so every collection refreshes, even one at the very second of
   * the last refresh.
   */
  lemma WrappedIntervalAlwaysRefreshes(t: int)
    ensures IntervalDuration(9_223_372_037) < 0
    ensures Stale(t, t, 9_223_372_037)
  {
  }

  /** Two devices, one online and one offline: readings are emitted for the online one only. */
  lemma OnlineOfflineScenario(a: Device, b: Device, sa: DeviceStateResponse, sb: DeviceStateResponse,
                              parseTime: string -> Option<int>)
    requires a.deviceId != b.deviceId
    requires sa.data.online && !sb.data.online
    ensures var states := map[a.deviceId := sa, b.deviceId := sb];
      && DeviceSamples([a, b], states, parseTime) == DeviceMetrics(a, sa, parseTime) + DeviceMetrics(b, sb, parseTime)
      && forall m :: m in DeviceSamples([a, b], states, parseTime) && IsReading(m.kind) ==> m.labels == Labels(a)
  {
    var states := map[a.deviceId := sa, b.deviceId := sb];
    assert [a, b] == [a] + [b];
    SamplesAppend([a], [b], states, parseTime);
    assert [a][..0] == [] && [b][..0] == [];
    var ma, mb := DeviceMetrics(a, sa, parseTime), DeviceMetrics(b, sb, parseTime);
    forall m: Metric | m in ma + mb && IsReading(m.kind) ensures m.labels == Labels(a) {
      if m in mb {
        DeviceMetricsShape(b, sb, parseTime);
      } else {
        DeviceMetricsShape(a, sa, parseTime);
      }
    }
  }
}
