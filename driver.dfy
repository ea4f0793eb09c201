/**
 * The pairing flow of the fan-coil driver: which discovered devices are offered to the
 * user, and how a failed or empty discovery is reported.
 */
module FancoilDriver {

  import opened Wrappers

  /** A device record from the discovery reply; each field may be missing. */
  datatype Device = Device(mac: Option<string>, id: Option<string>, name: Option<string>)

  /** JavaScript truthiness of a string field: present and not empty. */
  predicate Truthy(f: Option<string>)
    ensures !Truthy(f) <==> f == None || f == Some("")
  {
    f.Some? && f.value != ""
  }

  /** A device the filter keeps: it has both a MAC address and an id. */
  predicate Complete(d: Device)
    ensures Complete(d) ==> d.mac.Some? && d.id.Some? && |d.mac.value| > 0 && |d.id.value| > 0
    ensures !Complete(d) ==> d.mac in {None, Some("")} || d.id in {None, Some("")}
  {
    Truthy(d.mac) && Truthy(d.id)
  }

  /** The JSON value an API call yields. */
  datatype ApiData =
    | Null                                   // `null`, also what a failed call returns
    | NonObject                              // `false`, `0`, `""`, any other number or string, `true`
    | Object(devices: Option<seq<Device>>)   // an object; None: it has no `devices` array

  /** How the HTTP request of an API call ends: a throw, or a response with a body that may not parse. */
  datatype FetchOutcome = FetchThrew | HttpResponse(ok: bool, json: Option<ApiData>)

  /** `apiCall`: the parsed body of an ok response, and `null` for every failure. */
  function ApiCall(f: FetchOutcome): (d: ApiData)
    ensures d != Null ==> f.HttpResponse? && f.ok && f.json == Some(d)
    ensures f.HttpResponse? && f.ok && f.json.Some? ==> d == f.json.value
    ensures f.FetchThrew? || !f.ok || f.json.None? ==> d == Null
  {
    match f
    case FetchThrew => Null
    case HttpResponse(ok, json) =>
      if !ok then Null
      else match json
        case None => Null
        case Some(data) => data
  }

  /** `s` can be had from `t` by deleting elements. */
  ghost predicate IsSubsequence<T>(s: seq<T>, t: seq<T>)
    decreases |t|
  {
    if |s| == 0 then true
    else if |t| == 0 then false
    else (s[0] == t[0] && IsSubsequence(s[1..], t[1..])) || IsSubsequence(s, t[1..])
  }

  /** The filter of discovered devices: those with a MAC address and an id, in their order. */
  function KeepComplete(ds: seq<Device>): (r: seq<Device>)
    ensures IsSubsequence(r, ds)
    ensures forall i :: 0 <= i < |r| ==> Complete(r[i])
    ensures forall d :: multiset(r)[d] == if Complete(d) then multiset(ds)[d] else 0
  {
    if |ds| == 0 then []
    else
      var rest := KeepComplete(ds[1..]);
      assert ds == [ds[0]] + ds[1..];
      if Complete(ds[0]) then
        assert ([ds[0]] + rest)[1..] == rest;
        [ds[0]] + rest
      else
        rest
  }

  /** A subsequence takes no element more often than the sequence holds it. */
  lemma {:induction false} SubsequenceMultiset<T>(s: seq<T>, t: seq<T>)
    requires IsSubsequence(s, t)
    ensures multiset(s) <= multiset(t)
    decreases |t|
  {
    if |s| > 0 {
      assert t == [t[0]] + t[1..];
      if s[0] == t[0] && IsSubsequence(s[1..], t[1..]) {
        SubsequenceMultiset(s[1..], t[1..]);
        assert s == [s[0]] + s[1..];
      } else {
        SubsequenceMultiset(s, t[1..]);
      }
    }
  }

  /**
   * The three properties of the filter fix its result: any subsequence of complete
   * devices that keeps every complete device as often as the input has it is the filter.
   */
  lemma {:induction false} KeepCompleteUnique(s: seq<Device>, ds: seq<Device>)
    requires IsSubsequence(s, ds)
    requires forall i :: 0 <= i < |s| ==> Complete(s[i])
    requires forall d :: multiset(s)[d] == if Complete(d) then multiset(ds)[d] else 0
    ensures s == KeepComplete(ds)
    decreases |ds|
  {
    if |ds| == 0 {
      return;
    }
    var d0 := ds[0];
    assert ds == [d0] + ds[1..];
    if |s| == 0 {
      assert !Complete(d0) by {
        assert multiset(ds)[d0] > 0;
      }
      forall d ensures multiset(s)[d] == if Complete(d) then multiset(ds[1..])[d] else 0 {
        if Complete(d) { assert d != d0; }
      }
      KeepCompleteUnique(s, ds[1..]);
      return;
    }
    assert s == [s[0]] + s[1..];
    if Complete(d0) {
      if s[0] == d0 && IsSubsequence(s[1..], ds[1..]) {
        forall d ensures multiset(s[1..])[d] == if Complete(d) then multiset(ds[1..])[d] else 0 {
        }
        forall i | 0 <= i < |s[1..]| ensures Complete(s[1..][i]) {
          assert s[1..][i] == s[i + 1];
        }
        KeepCompleteUnique(s[1..], ds[1..]);
      } else {
        SubsequenceMultiset(s, ds[1..]);
        assert false;
      }
    } else {
      assert s[0] != d0 by {
        assert Complete(s[0]);
      }
      forall d ensures multiset(s)[d] == if Complete(d) then multiset(ds[1..])[d] else 0 {
        if Complete(d) { assert d != d0; }
      }
      KeepCompleteUnique(s, ds[1..]);
    }
  }

  /** `discoverDevices`: every unusable reply, and every throw inside, gives no devices. */
  function Discover(f: FetchOutcome): (r: seq<Device>)
    ensures forall i :: 0 <= i < |r| ==> Complete(r[i])
    ensures ApiCall(f).Object? && ApiCall(f).devices.Some? ==> (
      && IsSubsequence(r, ApiCall(f).devices.value)
      && forall d :: multiset(r)[d] == if Complete(d) then multiset(ApiCall(f).devices.value)[d] else 0)
    ensures !(ApiCall(f).Object? && ApiCall(f).devices.Some?) ==> r == []
  {
    match ApiCall(f)
    case Object(Some(devices)) => KeepComplete(devices)
    case _ => []
  }

  /** The name offered when a device reports none. */
  const DefaultName := "Onbekend apparaat"

  /** The one error `list_devices` raises, whatever went wrong. */
  const DiscoveryFailed := "Apparaatdetectie is mislukt. Controleer de logs voor meer informatie."

  /** The identity stored with a paired device. */
  datatype PairData = PairData(id: Option<string>, mac: Option<string>)

  /** A device as offered for pairing. */
  datatype PairEntry = PairEntry(name: string, data: PairData)

  /** The entry for one discovered device: its name, or the default when it has none, and its identity. */
  function PairEntryOf(d: Device): (e: PairEntry)
    ensures e.name != ""
    ensures Truthy(d.name) ==> e.name == d.name.value
    ensures !Truthy(d.name) ==> e.name == DefaultName
    ensures e.data.id == d.id && e.data.mac == d.mac
  {
    PairEntry(if Truthy(d.name) then d.name.value else DefaultName, PairData(d.id, d.mac))
  }

  /** The `list_devices` handler: one entry per discovered device, or the fixed error when there are none. */
  function ListDevices(f: FetchOutcome): (r: Result<seq<PairEntry>, string>)
    ensures r.Failure? <==> |Discover(f)| == 0
    ensures r.Failure? ==> r.error == DiscoveryFailed
    ensures r.Success? ==> (|r.value| == |Discover(f)|
      && forall i :: 0 <= i < |r.value| ==> r.value[i] == PairEntryOf(Discover(f)[i]))
  {
    var devices := Discover(f);
    if |devices| == 0 then Failure(DiscoveryFailed)
    else Success(seq(|devices|, i requires 0 <= i < |devices| => PairEntryOf(devices[i])))
  }

  /** Every entry offered has a name and carries the MAC address and id of its device. */
  lemma ListedEntriesComplete(f: FetchOutcome)
    ensures ListDevices(f).Success? ==> forall i :: 0 <= i < |ListDevices(f).value| ==>
      var e := ListDevices(f).value[i];
      var d := Discover(f)[i];
      && e.name != "" && Truthy(e.data.id) && Truthy(e.data.mac)
      && e.data == PairData(d.id, d.mac)
      && (Truthy(d.name) ==> e.name == d.name.value)
      && (!Truthy(d.name) ==> e.name == DefaultName)
  {
  }

  /** Pairing fails exactly when the reply lists no device with both a MAC address and an id. */
  lemma ListDevicesFailsIff(f: FetchOutcome)
    ensures ListDevices(f).Failure? <==>
      !(ApiCall(f).Object? && ApiCall(f).devices.Some?
        && exists i :: 0 <= i < |ApiCall(f).devices.value| && Complete(ApiCall(f).devices.value[i]))
  {
    var r := Discover(f);
    if ApiCall(f).Object? && ApiCall(f).devices.Some? {
      var ds := ApiCall(f).devices.value;
      if i :| 0 <= i < |ds| && Complete(ds[i]) {
        assert ds[i] in multiset(ds);
        assert multiset(r)[ds[i]] > 0;
      }
      if |r| > 0 {
        assert r[0] in multiset(r);
        assert r[0] in multiset(ds);
        var j :| 0 <= j < |ds| && ds[j] == r[0];
        assert Complete(ds[j]);
      }
    }
  }
}
