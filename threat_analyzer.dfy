/**
  The packet classifier and alert store of the back end
  (RealTimeThreatAnalyzer in app/utils/threat_analyzer.py).  Packet
  capture, the scaler and the ensemble are outside the model: a packet is
  its decoded layers, and the ensemble's output for it is an input.
*/
module ThreatAnalyzer {
  import opened Common

  /** The recording threshold of the shipped configuration (config/config.py). */
  const DefaultPredictionThreshold: real := 0.7
  /** Capacity of the packet buffer. */
  const PacketBufferCap: nat := 10000
  /** Capacity of the alert history. */
  const AlertHistoryCap: nat := 1000

  datatype IpLayer = IpLayer(src: string, dst: string)
  datatype TcpLayer = TcpLayer(flags: bv16, dport: int)
  datatype UdpLayer = UdpLayer(dport: int)

  /** A captured packet: its length in bytes and the layers it carries. */
  datatype Packet = Packet(length: nat, ip: Option<IpLayer>, tcp: Option<TcpLayer>, udp: Option<UdpLayer>)

  // ---------------------------------------------------------------------------
  // Feature extraction

  /** The 41 feature columns, in the order of the feature record. */
  const FeatureNames: seq<string> := [
    "duration", "protocol_type", "service", "flag", "src_bytes", "dst_bytes", "land",
    "wrong_fragment", "urgent", "hot", "num_failed_logins", "logged_in", "num_compromised",
    "root_shell", "su_attempted", "num_root", "num_file_creations", "num_shells",
    "num_access_files", "num_outbound_cmds", "is_host_login", "is_guest_login", "count",
    "srv_count", "serror_rate", "srv_serror_rate", "rerror_rate", "srv_rerror_rate",
    "same_srv_rate", "diff_srv_rate", "srv_diff_host_rate", "dst_host_count",
    "dst_host_srv_count", "dst_host_same_srv_rate", "dst_host_diff_srv_rate",
    "dst_host_same_src_port_rate", "dst_host_srv_diff_host_rate", "dst_host_serror_rate",
    "dst_host_srv_serror_rate", "dst_host_rerror_rate", "dst_host_srv_rerror_rate"]

  /** The four connection counts start at 1; every other column at 0. */
  function DefaultValue(name: string): (v: int)
    ensures v == 1 <==> name in {"count", "srv_count", "dst_host_count", "dst_host_srv_count"}
    ensures v == 0 <==> name !in {"count", "srv_count", "dst_host_count", "dst_host_srv_count"}
  {
    if name in {"count", "srv_count", "dst_host_count", "dst_host_srv_count"} then 1 else 0
  }

  /** The feature record of a packet before anything is read from it. */
  const DefaultFeatures: map<string, int> := map k | k in FeatureNames :: DefaultValue(k)

  /** The only columns a packet can change. */
  const PacketDerived: set<string> := {"src_bytes", "dst_bytes", "protocol_type", "flag", "service", "land"}

  /** Protocol code: 1 for TCP over IP, 2 for UDP over IP (TCP wins), 0 otherwise. */
  function ProtocolCode(p: Packet): (c: int)
    ensures c == 1 <==> p.ip.Some? && p.tcp.Some?
    ensures c == 2 <==> p.ip.Some? && p.tcp.None? && p.udp.Some?
    ensures c == 0 <==> p.ip.None? || (p.tcp.None? && p.udp.None?)
  {
    if p.ip.None? then 0
    else if p.tcp.Some? then 1
    else if p.udp.Some? then 2
    else 0
  }

  /** TCP flag code by priority: SYN (0x02) before ACK (0x10) before FIN (0x01). */
  function TcpFlagCode(flags: bv16): (c: int)
    ensures c == 1 <==> flags & 0x02 != 0
    ensures c == 2 <==> flags & 0x02 == 0 && flags & 0x10 != 0
    ensures c == 3 <==> flags & 0x02 == 0 && flags & 0x10 == 0 && flags & 0x01 != 0
    ensures c == 0 <==> flags & 0x13 == 0
  {
    if flags & 0x02 != 0 then 1
    else if flags & 0x10 != 0 then 2
    else if flags & 0x01 != 0 then 3
    else 0
  }

  /** TCP services by destination port: HTTP, HTTPS, SSH, FTP, SMTP. */
  function TcpService(port: int): (c: int)
    ensures c == 1 <==> port == 80
    ensures c == 2 <==> port == 443
    ensures c == 3 <==> port == 22
    ensures c == 4 <==> port == 21
    ensures c == 5 <==> port == 25
    ensures c == 0 <==> port !in {80, 443, 22, 21, 25}
  {
    if port == 80 then 1
    else if port == 443 then 2
    else if port == 22 then 3
    else if port == 21 then 4
    else if port == 25 then 5
    else 0
  }

  /** UDP services by destination port: DNS, and DHCP on either of its two ports. */
  function UdpService(port: int): (c: int)
    ensures c == 6 <==> port == 53
    ensures c == 7 <==> port == 67 || port == 68
    ensures c == 0 <==> port !in {53, 67, 68}
  {
    if port == 53 then 6
    else if port == 67 || port == 68 then 7
    else 0
  }

  function FlagCode(p: Packet): (c: int)
    ensures p.ip.None? || p.tcp.None? ==> c == 0
    ensures p.ip.Some? && p.tcp.Some? ==> c == TcpFlagCode(p.tcp.value.flags)
  {
    if p.ip.Some? && p.tcp.Some? then TcpFlagCode(p.tcp.value.flags) else 0
  }

  function ServiceCode(p: Packet): (c: int)
    ensures 0 <= c <= 7
    ensures 1 <= c <= 5 ==> p.ip.Some? && p.tcp.Some?
    ensures 6 <= c ==> p.ip.Some? && p.tcp.None? && p.udp.Some?
    ensures p.ip.Some? && p.tcp.Some? ==> c == TcpService(p.tcp.value.dport)
    ensures p.ip.Some? && p.tcp.None? && p.udp.Some? ==> c == UdpService(p.udp.value.dport)
  {
    if p.ip.None? then 0
    else if p.tcp.Some? then TcpService(p.tcp.value.dport)
    else if p.udp.Some? then UdpService(p.udp.value.dport)
    else 0
  }

  /** The land flag: source and destination address are the same. */
  function Land(p: Packet): (l: int)
    ensures l == 1 <==> p.ip.Some? && p.ip.value.src == p.ip.value.dst
    ensures l == 0 <==> !(p.ip.Some? && p.ip.value.src == p.ip.value.dst)
  {
    if p.ip.Some? && p.ip.value.src == p.ip.value.dst then 1 else 0
  }

  /**
    `extract_packet_features`: a non-IP packet keeps the defaults; an IP
    packet sets both byte counts to its length and the protocol, flag,
    service and land codes.
  */
  function ExtractPacketFeatures(p: Packet): (f: map<string, int>)
    ensures p.ip.None? ==> f == DefaultFeatures
    ensures p.ip.Some? ==> f == SetPacketColumns(DefaultFeatures, p)
  {
    if p.ip.None? then DefaultFeatures else SetPacketColumns(DefaultFeatures, p)
  }

  /** The six columns an IP packet sets, written over a feature record. */
  function SetPacketColumns(base: map<string, int>, p: Packet): (f: map<string, int>)
    ensures f.Keys == base.Keys + PacketDerived
    ensures forall k :: k in base && k !in PacketDerived ==> f[k] == base[k]
    ensures f["src_bytes"] == p.length && f["dst_bytes"] == p.length
    ensures f["protocol_type"] == ProtocolCode(p) && f["flag"] == FlagCode(p)
    ensures f["service"] == ServiceCode(p) && f["land"] == Land(p)
  {
    base["src_bytes" := p.length]["dst_bytes" := p.length]
        ["protocol_type" := ProtocolCode(p)]["flag" := FlagCode(p)]
        ["service" := ServiceCode(p)]["land" := Land(p)]
  }

  /** The six packet columns are among the defaults. */
  lemma PacketColumnsAreFeatures()
    ensures PacketDerived <= DefaultFeatures.Keys
  {
    assert FeatureNames[1] == "protocol_type" && FeatureNames[2] == "service" && FeatureNames[3] == "flag";
    assert FeatureNames[4] == "src_bytes" && FeatureNames[5] == "dst_bytes" && FeatureNames[6] == "land";
  }

  /** Extraction yields exactly the default columns. */
  lemma ExtractedColumns(p: Packet)
    ensures ExtractPacketFeatures(p).Keys == DefaultFeatures.Keys
  {
    if p.ip.Some? {
      IpPacketColumns(p);
    } else {
      var f := ExtractPacketFeatures(p);
      assert f == DefaultFeatures;
    }
  }

  lemma IpPacketColumns(p: Packet)
    requires p.ip.Some?
    ensures ExtractPacketFeatures(p).Keys == DefaultFeatures.Keys
  {
    var d := DefaultFeatures;
    calc {
      ExtractPacketFeatures(p).Keys;
    ==
      SetPacketColumns(d, p).Keys;
    == { PacketColumnsAreFeatures(); SetPacketColumnsKeepsKeys(d, p); }
      d.Keys;
    }
  }

  /** Every column outside the six keeps its default. */
  lemma ExtractedKeepsDefaults(p: Packet, k: string)
    requires k in DefaultFeatures && k !in PacketDerived
    ensures k in ExtractPacketFeatures(p) && ExtractPacketFeatures(p)[k] == DefaultFeatures[k]
  {
    var d := DefaultFeatures;
    if p.ip.Some? {
      SetPacketColumnsKeeps(d, p, k);
    }
  }

  lemma SetPacketColumnsKeeps(base: map<string, int>, p: Packet, k: string)
    requires k in base && k !in PacketDerived
    ensures k in SetPacketColumns(base, p) && SetPacketColumns(base, p)[k] == base[k]
  {
  }

  lemma SetPacketColumnsKeepsKeys(base: map<string, int>, p: Packet)
    requires PacketDerived <= base.Keys
    ensures SetPacketColumns(base, p).Keys == base.Keys
  {
  }

  /**
    The four codes of every packet are the decision table's, also for a
    non-IP packet, whose defaults are all 0.
  */
  lemma ExtractedCodes(p: Packet)
    ensures "protocol_type" in ExtractPacketFeatures(p) && ExtractPacketFeatures(p)["protocol_type"] == ProtocolCode(p)
    ensures "flag" in ExtractPacketFeatures(p) && ExtractPacketFeatures(p)["flag"] == FlagCode(p)
    ensures "service" in ExtractPacketFeatures(p) && ExtractPacketFeatures(p)["service"] == ServiceCode(p)
    ensures "land" in ExtractPacketFeatures(p) && ExtractPacketFeatures(p)["land"] == Land(p)
  {
    if p.ip.None? {
      DefaultCodes();
    }
  }

  /** The four code columns default to 0. */
  lemma DefaultCodes()
    ensures "protocol_type" in DefaultFeatures && DefaultFeatures["protocol_type"] == 0
    ensures "flag" in DefaultFeatures && DefaultFeatures["flag"] == 0
    ensures "service" in DefaultFeatures && DefaultFeatures["service"] == 0
    ensures "land" in DefaultFeatures && DefaultFeatures["land"] == 0
  {
    PacketColumnsAreFeatures();
    var f := DefaultFeatures;
    assert f["protocol_type"] == DefaultValue("protocol_type") == 0;
    assert f["flag"] == DefaultValue("flag") == 0;
    assert f["service"] == DefaultValue("service") == 0;
    assert f["land"] == DefaultValue("land") == 0;
  }

  /** A few rows of the decision table, on concrete packets. */
  lemma FeatureExamples()
    ensures var syn := Packet(60, Some(IpLayer("10.0.0.1", "10.0.0.2")), Some(TcpLayer(0x12, 443)), None);
      var f := ExtractPacketFeatures(syn);
      f["protocol_type"] == 1 && f["flag"] == 1 && f["service"] == 2 && f["land"] == 0 && f["src_bytes"] == 60
    ensures var dns := Packet(80, Some(IpLayer("10.0.0.9", "10.0.0.9")), None, Some(UdpLayer(53)));
      var f := ExtractPacketFeatures(dns);
      f["protocol_type"] == 2 && f["flag"] == 0 && f["service"] == 6 && f["land"] == 1
    ensures ExtractPacketFeatures(Packet(42, None, Some(TcpLayer(0x02, 80)), None)) == DefaultFeatures
  {
  }

  // ---------------------------------------------------------------------------
  // Classification

  /** `get_threat_type`: the five classes by name, anything else 'Unknown'. */
  function ThreatType(predictedClass: int): (r: string)
    ensures 0 <= predictedClass <= 4 ==> r == ["Normal", "DoS/DDoS", "Probe/Scan", "R2L", "U2R"][predictedClass]
    ensures r == "Unknown" <==> !(0 <= predictedClass <= 4)
  {
    if predictedClass == 0 then "Normal"
    else if predictedClass == 1 then "DoS/DDoS"
    else if predictedClass == 2 then "Probe/Scan"
    else if predictedClass == 3 then "R2L"
    else if predictedClass == 4 then "U2R"
    else "Unknown"
  }

  /** The index of the first largest probability, as numpy's argmax picks it. */
  function ArgMax(probs: seq<real>): (i: nat)
    requires |probs| > 0
    ensures i < |probs|
    ensures forall j :: 0 <= j < |probs| ==> probs[j] <= probs[i]
    ensures forall j :: 0 <= j < i ==> probs[j] < probs[i]
    decreases |probs|
  {
    if |probs| == 1 then 0
    else
      var k := ArgMax(probs[..|probs| - 1]);
      if probs[|probs| - 1] > probs[k] then |probs| - 1 else k
  }

  /**
    The class a prediction is recorded under, if any: the probability
    vector must be present and non-empty (numpy raises on an empty one and
    the error is swallowed), its maximum above the threshold, and the
    class not 0.
  */
  function Detection(prediction: Option<seq<real>>, threshold: real): (d: Option<nat>)
    ensures d.Some? <==>
      && prediction.Some? && |prediction.value| > 0
      && prediction.value[ArgMax(prediction.value)] > threshold
      && ArgMax(prediction.value) > 0
    ensures d.Some? ==> d.value == ArgMax(prediction.value)
  {
    if prediction.None? || |prediction.value| == 0 then None
    else
      var c := ArgMax(prediction.value);
      if prediction.value[c] > threshold && c > 0 then Some(c) else None
  }

  /** A recorded threat is never labelled 'Normal', and its confidence is above the threshold. */
  lemma RecordedThreatsAreAttacks(prediction: Option<seq<real>>, threshold: real)
    requires Detection(prediction, threshold).Some?
    ensures ThreatType(Detection(prediction, threshold).value) != "Normal"
    ensures forall j :: 0 <= j < |prediction.value| ==> prediction.value[j] <= prediction.value[Detection(prediction, threshold).value]
    ensures prediction.value[Detection(prediction, threshold).value] > threshold
  {
  }

  /** A tie for first place goes to the lower class, so a tie with class 0 is not recorded. */
  lemma TieWithNormalNotRecorded(p: real, threshold: real)
    ensures Detection(Some([p, p]), threshold).None?
  {
    assert ArgMax([p, p]) == 0;
  }

  /**
    At the shipped threshold of 0.7 the test is strict: a DoS probability of
    0.75 is recorded as class 1, one of exactly 0.7 is not.
  */
  lemma ShippedThresholdIsStrict()
    ensures Detection(Some([0.2, 0.75, 0.05]), DefaultPredictionThreshold) == Some(1)
    ensures Detection(Some([0.3, 0.7]), DefaultPredictionThreshold).None?
  {
    assert ArgMax([0.2, 0.75, 0.05]) == 1;
    assert ArgMax([0.3, 0.7]) == 1;
  }

  // ---------------------------------------------------------------------------
  // Records and bounded stores

  /** A packet as buffered: capture time, features and the packet itself. */
  datatype PacketRecord = PacketRecord(timestamp: int, features: map<string, int>, raw: Packet)

  /** A recorded detection. */
  datatype Threat = Threat(timestamp: int, threatType: string, confidence: real,
                           sourceIp: string, destinationIp: string, features: map<string, int>)

  /** The fields `get_recent_threats` reports for one detection. */
  datatype ThreatView = ThreatView(timestamp: int, threatType: string, confidence: real,
                                   sourceIp: string, destinationIp: string)

  function SourceIp(p: Packet): (a: string)
    ensures p.ip.Some? ==> a == p.ip.value.src
    ensures p.ip.None? ==> a == "Unknown"
  {
    if p.ip.Some? then p.ip.value.src else "Unknown"
  }

  function DestinationIp(p: Packet): (a: string)
    ensures p.ip.Some? ==> a == p.ip.value.dst
    ensures p.ip.None? ==> a == "Unknown"
  {
    if p.ip.Some? then p.ip.value.dst else "Unknown"
  }

  function ThreatOf(r: PacketRecord, predictedClass: nat, confidence: real): Threat
  {
    Threat(r.timestamp, ThreatType(predictedClass), confidence, SourceIp(r.raw), DestinationIp(r.raw), r.features)
  }

  /** `deque(maxlen=cap).append`: when full, the oldest entry is discarded first. */
  function BoundedAppend<T>(s: seq<T>, x: T, cap: nat): (r: seq<T>)
    requires cap >= 1 && |s| <= cap
    ensures |r| == Min(|s| + 1, cap)
    ensures r[|r| - 1] == x
  {
    if |s| < cap then s + [x] else s[1..] + [x]
  }

  /** The last `k` elements of a sequence (all of it when shorter). */
  function LastN<T>(s: seq<T>, k: nat): (r: seq<T>)
    ensures |r| == Min(|s|, k)
  {
    if |s| <= k then s else s[|s| - k..]
  }

  function AppendAll<T>(s: seq<T>, xs: seq<T>, cap: nat): seq<T>
    requires cap >= 1 && |s| <= cap
    decreases |xs|
  {
    if xs == [] then s else AppendAll(BoundedAppend(s, xs[0], cap), xs[1..], cap)
  }

  lemma LastNOfSuffix<T>(w: seq<T>, m: nat, cap: nat)
    requires m <= |w|
    requires |w| <= cap ==> m == 0
    requires |w| > cap ==> m <= |w| - cap
    ensures LastN(w[m..], cap) == LastN(w, cap)
  {
    if |w| > cap {
      assert w[m..][|w| - m - cap..] == w[|w| - cap..];
    }
  }

  /** One bounded append keeps the newest `cap` entries. */
  lemma BoundedAppendIsLastN<T>(s: seq<T>, x: T, cap: nat)
    requires cap >= 1 && |s| <= cap
    ensures BoundedAppend(s, x, cap) == LastN(s + [x], cap)
  {
    if |s| == cap {
      assert (s + [x])[|s| + 1 - cap..] == s[1..] + [x];
    }
  }

  /** Cutting to the newest `cap` entries early does not change the newest `cap` entries later. */
  lemma LastNConcat<T>(a: seq<T>, b: seq<T>, cap: nat)
    ensures LastN(LastN(a, cap) + b, cap) == LastN(a + b, cap)
  {
    if |a| > cap {
      var m := |a| - cap;
      assert a[m..] + b == (a + b)[m..];
      LastNOfSuffix(a + b, m, cap);
    }
  }

  /** Any run of appends leaves exactly the newest `cap` entries, oldest first. */
  lemma {:induction false} AppendAllKeepsNewest<T>(s: seq<T>, xs: seq<T>, cap: nat)
    requires cap >= 1 && |s| <= cap
    ensures AppendAll(s, xs, cap) == LastN(s + xs, cap)
    decreases |xs|
  {
    if xs == [] {
      assert s + xs == s;
    } else {
      var s1 := BoundedAppend(s, xs[0], cap);
      calc {
        AppendAll(s, xs, cap);
      ==
        AppendAll(s1, xs[1..], cap);
      == { AppendAllKeepsNewest(s1, xs[1..], cap); }
        LastN(s1 + xs[1..], cap);
      == { BoundedAppendIsLastN(s, xs[0], cap); }
        LastN(LastN(s + [xs[0]], cap) + xs[1..], cap);
      == { LastNConcat(s + [xs[0]], xs[1..], cap); }
        LastN((s + [xs[0]]) + xs[1..], cap);
      == { assert (s + [xs[0]]) + xs[1..] == s + xs; }
        LastN(s + xs, cap);
      }
    }
  }

  /**
    The start index of Python's `lst[-limit:]`: a negative start counts
    from the end and is clipped at 0; a start past the end is clipped to
    the length.  In particular `[-0:]` starts at 0.
  */
  function RecentStart(n: nat, limit: int): (start: nat)
    ensures start <= n
  {
    var k := -limit;
    if k >= 0 then Min(k, n) else Max(0, n + k)
  }

  function View(t: Threat): ThreatView
  {
    ThreatView(t.timestamp, t.threatType, t.confidence, t.sourceIp, t.destinationIp)
  }

  /** `get_recent_threats`: the views of the slice `history[-limit:]`, in chronological order. */
  function RecentThreats(history: seq<Threat>, limit: int): (r: seq<ThreatView>)
    ensures |r| == |history| - RecentStart(|history|, limit)
    ensures forall i :: 0 <= i < |r| ==> r[i] == View(history[RecentStart(|history|, limit) + i])
  {
    var start := RecentStart(|history|, limit);
    seq(|history| - start, i requires 0 <= i < |history| - start => View(history[start + i]))
  }

  /** A positive limit gives the last `limit` detections; 0 gives all of them; a negative one drops the first |limit|. */
  lemma RecentThreatsLimits(history: seq<Threat>, limit: int)
    ensures limit > 0 ==> |RecentThreats(history, limit)| == Min(limit, |history|)
    ensures limit > 0 && |RecentThreats(history, limit)| > 0 ==>
      RecentThreats(history, limit)[|RecentThreats(history, limit)| - 1] == View(history[|history| - 1])
    ensures limit == 0 ==> |RecentThreats(history, limit)| == |history|
    ensures limit < 0 ==> |RecentThreats(history, limit)| == Max(0, |history| + limit)
  {
  }

  // ---------------------------------------------------------------------------
  // The summary

  datatype TypeCount = TypeCount(threatType: string, count: nat)

  /** Count one more detection of type `t`: bump its entry, or add one at the end. */
  function Bump(ts: seq<TypeCount>, t: string): (r: seq<TypeCount>)
    ensures |ts| <= |r| <= |ts| + 1 && r != []
    decreases |ts|
  {
    if ts == [] then [TypeCount(t, 1)]
    else if ts[0].threatType == t then [ts[0].(count := ts[0].count + 1)] + ts[1..]
    else [ts[0]] + Bump(ts[1..], t)
  }

  /** The summary of a history, in the order in which types first appear (a Python dict). */
  function Tally(history: seq<Threat>): (r: seq<TypeCount>)
    ensures |r| <= |history|
    ensures r == [] <==> history == []
    decreases |history|
  {
    if history == [] then [] else Bump(Tally(history[..|history| - 1]), history[|history| - 1].threatType)
  }

  function Total(ts: seq<TypeCount>): nat
    decreases |ts|
  {
    if ts == [] then 0 else ts[0].count + Total(ts[1..])
  }

  /** The count a summary gives for `t` (0 when `t` is absent). */
  function CountOf(ts: seq<TypeCount>, t: string): nat
    decreases |ts|
  {
    if ts == [] then 0 else if ts[0].threatType == t then ts[0].count else CountOf(ts[1..], t)
  }

  /** The number of detections of type `t` in a history. */
  function Occurrences(history: seq<Threat>, t: string): nat
    decreases |history|
  {
    if history == [] then 0
    else Occurrences(history[..|history| - 1], t) + (if history[|history| - 1].threatType == t then 1 else 0)
  }

  /** The types a summary lists. */
  function Types(ts: seq<TypeCount>): set<string>
    decreases |ts|
  {
    if ts == [] then {} else {ts[0].threatType} + Types(ts[1..])
  }

  /** No type is listed twice. */
  predicate DistinctTypes(ts: seq<TypeCount>)
    decreases |ts|
  {
    ts == [] || (ts[0].threatType !in Types(ts[1..]) && DistinctTypes(ts[1..]))
  }

  /** The types that occur in a history. */
  function Seen(history: seq<Threat>): set<string>
  {
    set i | 0 <= i < |history| :: history[i].threatType
  }

  lemma {:induction false} BumpTotal(ts: seq<TypeCount>, t: string)
    ensures Total(Bump(ts, t)) == Total(ts) + 1
    decreases |ts|
  {
    if ts != [] && ts[0].threatType != t {
      BumpTotal(ts[1..], t);
      assert Bump(ts, t)[1..] == Bump(ts[1..], t);
    } else if ts != [] {
      assert Bump(ts, t)[1..] == ts[1..];
    }
  }

  lemma {:induction false} BumpCount(ts: seq<TypeCount>, t: string, u: string)
    ensures CountOf(Bump(ts, t), u) == CountOf(ts, u) + (if u == t then 1 else 0)
    decreases |ts|
  {
    if ts != [] && ts[0].threatType != t {
      BumpCount(ts[1..], t, u);
      assert Bump(ts, t)[1..] == Bump(ts[1..], t);
    } else if ts != [] {
      assert Bump(ts, t)[1..] == ts[1..];
    }
  }

  /** Bumping adds `t` to the listed types and keeps them distinct. */
  lemma {:induction false} BumpTypes(ts: seq<TypeCount>, t: string)
    ensures Types(Bump(ts, t)) == Types(ts) + {t}
    ensures DistinctTypes(ts) ==> DistinctTypes(Bump(ts, t))
    decreases |ts|
  {
    if ts != [] && ts[0].threatType != t {
      BumpTypes(ts[1..], t);
      assert Bump(ts, t)[1..] == Bump(ts[1..], t);
    } else if ts != [] {
      assert Bump(ts, t)[1..] == ts[1..];
    }
  }

  lemma SeenSnoc(history: seq<Threat>)
    requires history != []
    ensures Seen(history) == Seen(history[..|history| - 1]) + {history[|history| - 1].threatType}
  {
    var front := history[..|history| - 1];
    forall t | t in Seen(history) ensures t in Seen(front) + {history[|history| - 1].threatType} {
      var i :| 0 <= i < |history| && history[i].threatType == t;
      if i < |front| { assert front[i].threatType == t; }
    }
    forall t | t in Seen(front) ensures t in Seen(history) {
      var i :| 0 <= i < |front| && front[i].threatType == t;
      assert history[i].threatType == t;
    }
  }

  /** The summary's counts add up to the history's length, and it is empty only for an empty history. */
  lemma {:induction false} TallyTotal(history: seq<Threat>)
    ensures Total(Tally(history)) == |history|
    ensures Tally(history) == [] <==> history == []
    decreases |history|
  {
    if history != [] {
      TallyTotal(history[..|history| - 1]);
      BumpTotal(Tally(history[..|history| - 1]), history[|history| - 1].threatType);
    }
  }

  /** Each type's count is its number of occurrences. */
  lemma {:induction false} TallyCounts(history: seq<Threat>, t: string)
    ensures CountOf(Tally(history), t) == Occurrences(history, t)
    decreases |history|
  {
    if history != [] {
      TallyCounts(history[..|history| - 1], t);
      BumpCount(Tally(history[..|history| - 1]), history[|history| - 1].threatType, t);
    }
  }

  /** The summary lists exactly the types that occur, each once. */
  lemma {:induction false} TallyTypes(history: seq<Threat>)
    ensures Types(Tally(history)) == Seen(history)
    ensures DistinctTypes(Tally(history))
    decreases |history|
  {
    if history != [] {
      TallyTypes(history[..|history| - 1]);
      BumpTypes(Tally(history[..|history| - 1]), history[|history| - 1].threatType);
      SeenSnoc(history);
    }
  }

  /** System statistics as `get_system_stats` reports them. */
  datatype Stats = Stats(totalPackets: nat, threatsDetected: nat, falsePositives: nat,
                         systemLoad: real, memoryUsage: real)

  class RealTimeThreatAnalyzer {
    var packetBuffer: seq<PacketRecord>
    var threatQueue: seq<Threat>
    var alertHistory: seq<Threat>
    var monitoringActive: bool
    var monitoringThread: bool
    var totalPackets: nat
    var threatsDetected: nat
    var falsePositives: nat
    var systemLoad: real
    var memoryUsage: real
    const threshold: real

    ghost predicate Valid()
      reads this
    {
      |packetBuffer| <= PacketBufferCap && |alertHistory| <= AlertHistoryCap
    }

    /** `threshold` is the configured PREDICTION_THRESHOLD (DefaultPredictionThreshold as shipped). */
    constructor (threshold: real)
      ensures Valid()
      ensures this.threshold == threshold
      ensures packetBuffer == [] && threatQueue == [] && alertHistory == []
      ensures !monitoringActive && !monitoringThread
      ensures totalPackets == 0 && threatsDetected == 0 && falsePositives == 0
      ensures systemLoad == 0.0 && memoryUsage == 0.0
    {
      this.threshold := threshold;
      packetBuffer := [];
      threatQueue := [];
      alertHistory := [];
      monitoringActive := false;
      monitoringThread := false;
      totalPackets := 0;
      threatsDetected := 0;
      falsePositives := 0;
      systemLoad := 0.0;
      memoryUsage := 0.0;
    }

    /**
      The decision after a prediction: a detection is queued, appended to
      the bounded history and counted; otherwise nothing changes.
    */
    method AnalyzePacket(r: PacketRecord, prediction: Option<seq<real>>)
      requires Valid()
      modifies this`threatQueue, this`alertHistory, this`threatsDetected
      ensures Valid()
      ensures Detection(prediction, threshold).None? ==>
        threatQueue == old(threatQueue) && alertHistory == old(alertHistory) && threatsDetected == old(threatsDetected)
      ensures Detection(prediction, threshold).Some? ==>
        var c := Detection(prediction, threshold).value;
        var t := ThreatOf(r, c, prediction.value[c]);
        && threatQueue == old(threatQueue) + [t]
        && alertHistory == BoundedAppend(old(alertHistory), t, AlertHistoryCap)
        && threatsDetected == old(threatsDetected) + 1
    {
      if prediction.Some? && |prediction.value| > 0 {
        var maxProb := prediction.value[ArgMax(prediction.value)];
        var predictedClass := ArgMax(prediction.value);
        if maxProb > threshold && predictedClass > 0 {
          var t := ThreatOf(r, predictedClass, maxProb);
          threatQueue := threatQueue + [t];
          alertHistory := BoundedAppend(alertHistory, t, AlertHistoryCap);
          threatsDetected := threatsDetected + 1;
        }
      }
    }

    /**
      `packet_handler`: buffer the packet with its features and count it,
      then analyse it; `prediction` is the ensemble's output for it.
    */
    method PacketHandler(p: Packet, now: int, prediction: Option<seq<real>>)
      requires Valid()
      modifies this`packetBuffer, this`totalPackets, this`threatQueue, this`alertHistory, this`threatsDetected
      ensures Valid()
      ensures packetBuffer == BoundedAppend(old(packetBuffer), PacketRecord(now, ExtractPacketFeatures(p), p), PacketBufferCap)
      ensures totalPackets == old(totalPackets) + 1
      ensures threatsDetected == old(threatsDetected) + (if Detection(prediction, threshold).Some? then 1 else 0)
      ensures Detection(prediction, threshold).None? ==>
        threatQueue == old(threatQueue) && alertHistory == old(alertHistory)
      ensures Detection(prediction, threshold).Some? ==>
        var c := Detection(prediction, threshold).value;
        var t := ThreatOf(packetBuffer[|packetBuffer| - 1], c, prediction.value[c]);
        && threatQueue == old(threatQueue) + [t]
        && alertHistory == BoundedAppend(old(alertHistory), t, AlertHistoryCap)
    {
      var r := PacketRecord(now, ExtractPacketFeatures(p), p);
      BufferPacket(r);
      AnalyzePacket(r, prediction);
    }

    /** The first half of `packet_handler`: the record is buffered and the packet counted. */
    method BufferPacket(r: PacketRecord)
      requires Valid()
      modifies this`packetBuffer, this`totalPackets
      ensures Valid()
      ensures packetBuffer == BoundedAppend(old(packetBuffer), r, PacketBufferCap)
      ensures totalPackets == old(totalPackets) + 1
    {
      packetBuffer := BoundedAppend(packetBuffer, r, PacketBufferCap);
      totalPackets := totalPackets + 1;
    }

    /** Starting twice is refused and changes nothing. */
    method StartMonitoring() returns (started: bool)
      modifies this`monitoringActive, this`monitoringThread
      ensures started == !old(monitoringActive)
      ensures monitoringActive
      ensures !started ==> monitoringThread == old(monitoringThread)
      ensures started ==> monitoringThread
    {
      if monitoringActive {
        return false;
      }
      monitoringActive := true;
      monitoringThread := true;
      started := true;
    }

    /** A failure inside the capture thread clears the flag, so monitoring can be started again. */
    method CaptureFailed()
      modifies this`monitoringActive
      ensures !monitoringActive
    {
      monitoringActive := false;
    }

    method StopMonitoring()
      modifies this`monitoringActive
      ensures !monitoringActive
    {
      monitoringActive := false;
    }

    function GetRecentThreats(limit: int): (r: seq<ThreatView>)
      reads this
      ensures r == RecentThreats(alertHistory, limit)
    {
      RecentThreats(alertHistory, limit)
    }

    /** Samples load and memory (given as inputs) into the statistics and returns a copy. */
    method GetSystemStats(cpuPercent: real, memoryPercent: real) returns (s: Stats)
      modifies this`systemLoad, this`memoryUsage
      ensures systemLoad == cpuPercent && memoryUsage == memoryPercent
      ensures s == Stats(totalPackets, threatsDetected, falsePositives, cpuPercent, memoryPercent)
    {
      systemLoad := cpuPercent;
      memoryUsage := memoryPercent;
      s := Stats(totalPackets, threatsDetected, falsePositives, systemLoad, memoryUsage);
    }

    /** `get_threat_summary`: per-type counts of the alert history. */
    method GetThreatSummary() returns (summary: seq<TypeCount>)
      ensures summary == Tally(alertHistory)
      ensures summary == [] <==> alertHistory == []
    {
      if alertHistory == [] {
        return [];
      }
      summary := [];
      var i := 0;
      while i < |alertHistory|
        invariant 0 <= i <= |alertHistory|
        invariant summary == Tally(alertHistory[..i])
      {
        assert alertHistory[..i + 1][..i] == alertHistory[..i];
        summary := Bump(summary, alertHistory[i].threatType);
        i := i + 1;
      }
      assert alertHistory[..i] == alertHistory;
      TallyTotal(alertHistory);
    }
  }
}
