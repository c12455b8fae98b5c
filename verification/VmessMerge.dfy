/**
 From a sing-box transport and TLS block to the flat map of a vmess link: the appliers fill a
 query, and mergeQueryIntoVmessMap walks it in whatever order the map yields.
 */
module VmessMerge {
  import opened Common
  import opened GoStrings

  type Query = map<string, string>

  datatype Reality = Reality(enabled: bool, publicKey: string, shortId: string)

  datatype Ech = Ech(enabled: bool, config: string, queryServerName: string)

  /** Lists appear as the comma or newline joined text the appliers make of them. */
  datatype Tls = Tls(enabled: bool, serverName: string, insecure: bool, alpn: string,
                     fingerprint: string, reality: Option<Reality>, ech: Option<Ech>)

  /** Durations in whole seconds; `header` is the Host header, `headers` the others as JSON,
      `early` the path with its ?ed= query put back, "" when there is no early data. */
  datatype Transport = Transport(
    typ: string, path: string, header: string, host: string, early: string, serviceName: string,
    httpMethod: string, headers: string, idleTimeout: nat, pingTimeout: nat, heartbeat: nat,
    permitWithoutStream: bool, authority: string, userAgent: string, mode: string, extra: string)

  function SetIf(q: Query, key: string, v: string): Query { if v == "" then q else q[key := v] }

  function SetSeconds(q: Query, key: string, n: nat): Query { if n > 0 then q[key := Itoa(n)] else q }

  function ApplySingboxEch(q: Query, tls: Option<Tls>): Query {
    if tls == None || tls.value.ech == None || !tls.value.ech.value.enabled then q
    else
      var e := tls.value.ech.value;
      SetIf(q["ech" := e.config], "query_server_name", e.queryServerName)
  }

  function ApplySingboxTls(q: Query, tls: Option<Tls>): Query {
    if tls == None || !tls.value.enabled then q["security" := "none"]
    else
      var t := tls.value;
      var q1 := if t.reality.Some? && t.reality.value.enabled
                then SetIf(SetIf(q["security" := "reality"], "pbk", t.reality.value.publicKey),
                           "sid", t.reality.value.shortId)
                else q["security" := "tls"];
      var q2 := SetIf(SetIf(q1, "sni", t.serverName), "alpn", t.alpn);
      var q3 := if t.insecure then q2["insecure" := "1"]["allowInsecure" := "1"] else q2;
      ApplySingboxEch(SetIf(q3, "fp", t.fingerprint), tls)
  }

  function ApplySingboxTransport(q: Query, tr: Option<Transport>): Query {
    if tr == None || tr.value.typ == "" then q["type" := "tcp"]
    else
      var t := tr.value;
      var q1 := q["type" := t.typ];
      var withPath := SetIf(q1, "path", t.path);
      if t.typ == "ws" then
        SetSeconds(SetIf(SetIf(withPath, "host", t.header), "path", t.early), "heartbeat_period", t.heartbeat)
      else if t.typ == "httpupgrade" then
        SetIf(SetIf(withPath, "host", OrDefault(t.host, t.header)), "path", t.early)
      else if t.typ == "grpc" then
        var q2 := SetSeconds(SetSeconds(SetIf(q1, "serviceName", t.serviceName), "idle_timeout", t.idleTimeout),
                             "health_check_timeout", t.pingTimeout);
        var q3 := if t.permitWithoutStream then q2["permit_without_stream" := "1"] else q2;
        SetIf(SetIf(q3, "authority", t.authority), "user_agent", t.userAgent)
      else if t.typ == "http" then
        var q2 := SetIf(SetIf(SetIf(withPath, "host", t.host), "method", t.httpMethod), "headers", t.headers);
        SetSeconds(SetSeconds(q2, "idle_timeout", t.idleTimeout), "health_check_timeout", t.pingTimeout)
      else if t.typ == "xhttp" then
        SetIf(SetIf(SetIf(withPath, "host", t.host), "mode", t.mode), "extra", t.extra)
      else q1
  }

  // ---- The merge ----

  /** What one key of the query writes. */
  function Effect(key: string, v: string): map<string, string> {
    var lk := Lower(key);
    if lk == "type" then map["net" := v]
    else if lk == "security" then
      (if v == "tls" || v == "reality" then map["security" := v, "tls" := v] else map["security" := v])
    else if lk == "packetencoding" then map["packetEncoding" := v]
    else map[lk := v]
  }

  /** No two keys of the query write the same field. */
  ghost predicate NoClash(q: Query) {
    forall k, l :: k in q && l in q && k != l ==> Effect(k, q[k]).Keys !! Effect(l, q[l]).Keys
  }

  ghost predicate Writer(q: Query, ks: set<string>, x: string, k: string) {
    k in ks && k in q && x in Effect(k, q[k])
  }

  ghost predicate HasType(q: Query, ks: set<string>) { exists k :: k in ks && k in q && Lower(k) == "type" }

  function Lookup(m: Query, x: string): Option<string> { if x in m then Some(m[x]) else None }

  ghost predicate Written(q: Query, ks: set<string>, x: string) { exists k :: Writer(q, ks, x, k) }

  /** Field `x` of the result once the keys `ks` are merged into `m`: what a key writes there;
      else what was there; else, for "type", the legacy header type when the query has one. */
  ghost predicate IsField(m: Query, q: Query, ks: set<string>, x: string, v: Option<string>) {
    && (forall k :: Writer(q, ks, x, k) ==> v == Some(Effect(k, q[k])[x]))
    && (!Written(q, ks, x) ==>
          v == if x in m then Some(m[x]) else if x == "type" && HasType(q, ks) then Some("none") else None)
  }

  ghost predicate Merged(m: Query, q: Query, ks: set<string>, r: Query) {
    forall x :: IsField(m, q, ks, x, Lookup(r, x))
  }

  /** The description leaves no choice: two results of the same merge are the same map. */
  lemma MergedIsUnique(m: Query, q: Query, ks: set<string>, r: Query, r': Query)
    requires Merged(m, q, ks, r) && Merged(m, q, ks, r')
    ensures r == r'
  {
    forall x
      ensures Lookup(r, x) == Lookup(r', x)
    {
      assert IsField(m, q, ks, x, Lookup(r, x)) && IsField(m, q, ks, x, Lookup(r', x));
    }
    forall x
      ensures (x in r <==> x in r') && (x in r ==> r[x] == r'[x])
    {
      assert Lookup(r, x) == Lookup(r', x);
    }
  }

  function WithDefaultType(r: Query, lk: string): Query {
    if lk == "type" && "type" !in r then r["type" := "none"] else r
  }

  lemma NobodyWritesType(q: Query, ks: set<string>)
    ensures !Written(q, ks, "type")
  {
  }

  /** One more key. */
  lemma MergeStep(m: Query, q: Query, ks: set<string>, k: string, r: Query, r': Query)
    requires NoClash(q) && Merged(m, q, ks, r) && k in q && k !in ks
    requires r' == WithDefaultType(r + Effect(k, q[k]), Lower(k))
    ensures Merged(m, q, ks + {k}, r')
  {
    forall x
      ensures IsField(m, q, ks + {k}, x, Lookup(r', x))
    {
      assert IsField(m, q, ks, x, Lookup(r, x));
      FieldStep(m, q, ks, k, x, r, r');
    }
  }

  lemma FieldStep(m: Query, q: Query, ks: set<string>, k: string, x: string, r: Query, r': Query)
    requires NoClash(q) && IsField(m, q, ks, x, Lookup(r, x)) && k in q && k !in ks
    requires r' == WithDefaultType(r + Effect(k, q[k]), Lower(k))
    ensures IsField(m, q, ks + {k}, x, Lookup(r', x))
  {
    var both := ks + {k};
    assert forall w :: Writer(q, both, x, w) <==> Writer(q, ks, x, w) || (w == k && x in Effect(k, q[k]));
    if x in Effect(k, q[k]) {
      NobodyWritesType(q, both);
      assert Writer(q, both, x, k);
      forall w | Writer(q, both, x, w)
        ensures w == k
      {
      }
    } else {
      assert Written(q, both, x) ==> Written(q, ks, x) by {
        if w :| Writer(q, both, x, w) {
          assert Writer(q, ks, x, w);
        }
      }
      if x == "type" {
        NobodyWritesType(q, ks);
        assert HasType(q, both) <==> HasType(q, ks) || Lower(k) == "type" by {
          if Lower(k) == "type" {
            assert k in both;
          }
          if w :| w in ks && w in q && Lower(w) == "type" {
            assert w in both;
          }
        }
      }
    }
  }

  /** Whatever order the query is walked in, the result is the same map: the one that the
      field-by-field description determines. */
  method MergeQueryIntoVmessMap(m: Query, q: Query) returns (r: Query)
    requires NoClash(q)
    ensures Merged(m, q, q.Keys, r)
    ensures forall r' :: Merged(m, q, q.Keys, r') ==> r' == r
  {
    r := m;
    var todo := q.Keys;
    ghost var done := {};
    while todo != {}
      invariant todo <= q.Keys && done == q.Keys - todo
      invariant Merged(m, q, done, r)
      decreases todo
    {
      var k :| k in todo;
      ghost var before := r;
      r := MergeKey(r, k, q[k]);
      MergeStep(m, q, done, k, before, r);
      todo := todo - {k};
      done := done + {k};
    }
    assert done == q.Keys;
    forall r' | Merged(m, q, q.Keys, r')
      ensures r' == r
    {
      MergedIsUnique(m, q, q.Keys, r', r);
    }
  }

  /** The body of the loop. */
  method MergeKey(m: Query, k: string, v: string) returns (r: Query)
    ensures r == WithDefaultType(m + Effect(k, v), Lower(k))
  {
    r := m;
    var lk := Lower(k);
    if lk == "type" {
      r := r["net" := v];
      if "type" !in r {
        r := r["type" := "none"];
      }
      assert m + Effect(k, v) == m["net" := v];
    } else if lk == "security" {
      r := r["security" := v];
      if v == "tls" || v == "reality" {
        r := r["tls" := v];
      }
      assert r == m + Effect(k, v);
    } else if lk == "packetencoding" {
      r := r["packetEncoding" := v];
      assert r == m + Effect(k, v);
    } else {
      r := r[lk := v];
      assert r == m + Effect(k, v);
    }
  }

  /** Order does matter in general: two spellings of one key. */
  lemma ClashingKeysDisagree()
    ensures WithDefaultType(map[] + Effect("SNI", "a"), "sni") + Effect("sni", "b")
            != WithDefaultType(map[] + Effect("sni", "b"), "sni") + Effect("SNI", "a")
  {
    assert Lower("SNI") == "sni" && Lower("sni") == "sni";
    var ab := WithDefaultType(map[] + Effect("SNI", "a"), "sni") + Effect("sni", "b");
    var ba := WithDefaultType(map[] + Effect("sni", "b"), "sni") + Effect("SNI", "a");
    assert ab["sni"] == "b" && ba["sni"] == "a";
  }

  // ---- The queries the appliers build never clash ----

  const TLS_KEYS: set<string> :=
    {"security", "pbk", "sid", "sni", "alpn", "insecure", "fp", "ech", "query_server_name"}

  const TRANSPORT_KEYS: set<string> :=
    {"type", "path", "host", "heartbeat_period", "idle_timeout", "health_check_timeout",
     "permit_without_stream", "authority", "user_agent", "method", "headers", "mode", "extra"}

  const PLAIN_KEYS: set<string> := TLS_KEYS + TRANSPORT_KEYS

  const APPLIER_KEYS: set<string> := PLAIN_KEYS + {"allowInsecure", "serviceName"}

  predicate IsLower(s: string) { forall i :: 0 <= i < |s| ==> !('A' <= s[i] <= 'Z') }

  lemma LowerOfLower(s: string)
    requires IsLower(s)
    ensures Lower(s) == s
  {
  }

  lemma AppliersUseTheirKeys(tr: Option<Transport>, tls: Option<Tls>)
    ensures ApplySingboxTls(ApplySingboxTransport(map[], tr), tls).Keys <= APPLIER_KEYS
  {
    var q := ApplySingboxTransport(map[], tr);
    TransportUsesItsKeys(tr);
    TlsUsesItsKeys(q, tls);
  }

  lemma TransportUsesItsKeys(tr: Option<Transport>)
    ensures ApplySingboxTransport(map[], tr).Keys <= APPLIER_KEYS
  {
  }

  lemma TlsUsesItsKeys(q: Query, tls: Option<Tls>)
    requires q.Keys <= APPLIER_KEYS
    ensures ApplySingboxTls(q, tls).Keys <= APPLIER_KEYS
  {
  }

  lemma TlsKeysAreLower(k: string)
    requires k in TLS_KEYS
    ensures IsLower(k)
  {
  }

  lemma TransportKeysAreLower(k: string)
    requires k in TRANSPORT_KEYS
    ensures IsLower(k)
  {
  }

  lemma LowerPlainKey(k: string)
    requires k in PLAIN_KEYS
    ensures Lower(k) == k
  {
    if k in TLS_KEYS {
      TlsKeysAreLower(k);
    } else {
      TransportKeysAreLower(k);
    }
    LowerOfLower(k);
  }

  lemma OutsideTlsKeys()
    ensures "allowinsecure" !in TLS_KEYS && "servicename" !in TLS_KEYS
    ensures "net" !in TLS_KEYS && "tls" !in TLS_KEYS
  {
  }

  lemma OutsideTransportKeys()
    ensures "allowinsecure" !in TRANSPORT_KEYS && "servicename" !in TRANSPORT_KEYS
    ensures "net" !in TRANSPORT_KEYS && "tls" !in TRANSPORT_KEYS
  {
  }

  lemma LowerMixedKeys()
    ensures Lower("allowInsecure") == "allowinsecure" && Lower("serviceName") == "servicename"
  {
  }

  /** No key an applier sets spells one of the fields that every map has, in any case. */
  lemma ApplierKeyIsOwn(k: string)
    requires k in APPLIER_KEYS
    ensures Lower(k) !in {"net", "tls", "packetEncoding"}
  {
    OutsideTlsKeys();
    OutsideTransportKeys();
    LowerMixedKeys();
    NotLower();
    if k in PLAIN_KEYS {
      LowerPlainKey(k);
    }
  }

  lemma NotLower()
    ensures forall k: string :: Lower(k) != "packetEncoding"
  {
    forall k: string
      ensures Lower(k) != "packetEncoding"
    {
      assert Lower(k) == "packetEncoding" ==> Lower(k)[6] == 'E' && Lower(k)[6] == LowerChar(k[6]);
    }
  }

  lemma ApplierKeysDiffer(k: string, l: string)
    requires k in APPLIER_KEYS && l in APPLIER_KEYS && k != l
    ensures Lower(k) != Lower(l)
  {
    OutsideTlsKeys();
    OutsideTransportKeys();
    LowerMixedKeys();
    if k in PLAIN_KEYS {
      LowerPlainKey(k);
    }
    if l in PLAIN_KEYS {
      LowerPlainKey(l);
    }
  }

  lemma EffectsApart(k: string, v: string, l: string, w: string)
    requires Lower(k) != Lower(l)
    requires Lower(k) !in {"net", "tls", "packetEncoding"} && Lower(l) !in {"net", "tls", "packetEncoding"}
    ensures Effect(k, v).Keys !! Effect(l, w).Keys
  {
  }

  /** So for every transport and TLS block the merge is defined, in every order. */
  lemma ApplierKeysNeverClash(q: Query)
    requires q.Keys <= APPLIER_KEYS
    ensures NoClash(q)
  {
    forall k, l | k in q && l in q && k != l
      ensures Effect(k, q[k]).Keys !! Effect(l, q[l]).Keys
    {
      assert k in APPLIER_KEYS && l in APPLIER_KEYS;
      ApplierKeyIsOwn(k);
      ApplierKeyIsOwn(l);
      ApplierKeysDiffer(k, l);
      EffectsApart(k, q[k], l, q[l]);
    }
  }

  // ---- Which field a value comes from ----

  function Given(v: string): Option<string> { if v == "" then None else Some(v) }

  function Seconds(n: nat): Option<string> { if n > 0 then Some(Itoa(n)) else None }

  function Flag(b: bool): Option<string> { if b then Some("1") else None }

  predicate RealityOn(t: Tls) { t.reality.Some? && t.reality.value.enabled }

  predicate EchOn(t: Tls) { t.ech.Some? && t.ech.value.enabled }

  /** What a TLS block says under a name. */
  function TlsField(t: Tls, k: string): Option<string> {
    if k == "security" then Some(if !t.enabled then "none" else if RealityOn(t) then "reality" else "tls")
    else if k == "ech" && EchOn(t) && t.enabled then Some(t.ech.value.config)
    else if k == "query_server_name" && EchOn(t) && t.enabled then Given(t.ech.value.queryServerName)
    else if k == "pbk" && RealityOn(t) && t.enabled then Given(t.reality.value.publicKey)
    else if k == "sid" && RealityOn(t) && t.enabled then Given(t.reality.value.shortId)
    else if k == "sni" && t.enabled then Given(t.serverName)
    else if k == "alpn" && t.enabled then Given(t.alpn)
    else if k == "fp" && t.enabled then Given(t.fingerprint)
    else if (k == "insecure" || k == "allowInsecure") && t.enabled then Flag(t.insecure)
    else None
  }

  const NO_TLS: Tls := Tls(false, "", false, "", "", None, None)

  function TlsOf(tls: Option<Tls>): Tls { if tls.Some? then tls.value else NO_TLS }

  /** What a transport says under a name. */
  function TransportField(t: Transport, k: string): Option<string> {
    var ws, upgrade, grpc, http, xhttp :=
      t.typ == "ws", t.typ == "httpupgrade", t.typ == "grpc", t.typ == "http", t.typ == "xhttp";
    if k == "type" then Some(if t.typ == "" then "tcp" else t.typ)
    else if k == "path" && (ws || upgrade) then Given(if t.early == "" then t.path else t.early)
    else if k == "path" && (http || xhttp) then Given(t.path)
    else if k == "host" && ws then Given(t.header)
    else if k == "host" && upgrade then Given(if t.host == "" then t.header else t.host)
    else if k == "host" && (http || xhttp) then Given(t.host)
    else if k == "heartbeat_period" && ws then Seconds(t.heartbeat)
    else if k == "serviceName" && grpc then Given(t.serviceName)
    else if k == "idle_timeout" && (grpc || http) then Seconds(t.idleTimeout)
    else if k == "health_check_timeout" && (grpc || http) then Seconds(t.pingTimeout)
    else if k == "permit_without_stream" && grpc then Flag(t.permitWithoutStream)
    else if k == "authority" && grpc then Given(t.authority)
    else if k == "user_agent" && grpc then Given(t.userAgent)
    else if k == "method" && http then Given(t.httpMethod)
    else if k == "headers" && http then Given(t.headers)
    else if k == "mode" && xhttp then Given(t.mode)
    else if k == "extra" && xhttp then Given(t.extra)
    else None
  }

  const NO_TRANSPORT: Transport := Transport("", "", "", "", "", "", "", "", 0, 0, 0, false, "", "", "", "")

  function TransportOf(tr: Option<Transport>): Transport { if tr.Some? then tr.value else NO_TRANSPORT }

  function Else(v: Option<string>, w: Option<string>): Option<string> { if v.Some? then v else w }

  lemma SetIfAt(q: Query, key: string, v: string, k: string)
    ensures Lookup(SetIf(q, key, v), k) == Else(if k == key then Given(v) else None, Lookup(q, k))
  {
  }

  lemma EchFields(q: Query, t: Tls, k: string)
    ensures Lookup(ApplySingboxEch(q, Some(t)), k)
            == if EchOn(t) && (k == "ech" || k == "query_server_name") then
                 Else(if k == "ech" then Some(t.ech.value.config) else Given(t.ech.value.queryServerName), Lookup(q, k))
               else Lookup(q, k)
  {
  }

  lemma RealityFields(q: Query, r: Reality, k: string)
    ensures Lookup(SetIf(SetIf(q["security" := "reality"], "pbk", r.publicKey), "sid", r.shortId), k)
            == if k == "security" then Some("reality")
               else if k == "pbk" then Else(Given(r.publicKey), Lookup(q, k))
               else if k == "sid" then Else(Given(r.shortId), Lookup(q, k))
               else Lookup(q, k)
  {
    SetIfAt(q["security" := "reality"], "pbk", r.publicKey, k);
    SetIfAt(SetIf(q["security" := "reality"], "pbk", r.publicKey), "sid", r.shortId, k);
  }

  /** The middle of a TLS block: the names, and whether certificates are checked. */
  lemma NameFields(q: Query, t: Tls, k: string)
    ensures var q2 := SetIf(SetIf(q, "sni", t.serverName), "alpn", t.alpn);
            var q3 := if t.insecure then q2["insecure" := "1"]["allowInsecure" := "1"] else q2;
            Lookup(SetIf(q3, "fp", t.fingerprint), k)
            == if k == "sni" then Else(Given(t.serverName), Lookup(q, k))
               else if k == "alpn" then Else(Given(t.alpn), Lookup(q, k))
               else if k == "fp" then Else(Given(t.fingerprint), Lookup(q, k))
               else if k == "insecure" || k == "allowInsecure" then Else(Flag(t.insecure), Lookup(q, k))
               else Lookup(q, k)
  {
    SetIfAt(q, "sni", t.serverName, k);
    SetIfAt(SetIf(q, "sni", t.serverName), "alpn", t.alpn, k);
  }

  lemma TlsFields(q: Query, tls: Option<Tls>, k: string)
    ensures Lookup(ApplySingboxTls(q, tls), k) == Else(TlsField(TlsOf(tls), k), Lookup(q, k))
  {
    if tls.Some? && tls.value.enabled {
      var t := tls.value;
      if RealityOn(t) {
        RealityFields(q, t.reality.value, k);
      }
      var q1 := if RealityOn(t)
                then SetIf(SetIf(q["security" := "reality"], "pbk", t.reality.value.publicKey),
                           "sid", t.reality.value.shortId)
                else q["security" := "tls"];
      var q2 := SetIf(SetIf(q1, "sni", t.serverName), "alpn", t.alpn);
      var q3 := if t.insecure then q2["insecure" := "1"]["allowInsecure" := "1"] else q2;
      NameFields(q1, t, k);
      EchFields(SetIf(q3, "fp", t.fingerprint), t, k);
    }
  }

  lemma WsFields(t: Transport, k: string)
    requires t.typ == "ws"
    ensures Lookup(ApplySingboxTransport(map[], Some(t)), k) == TransportField(t, k)
  {
  }

  lemma UpgradeFields(t: Transport, k: string)
    requires t.typ == "httpupgrade"
    ensures Lookup(ApplySingboxTransport(map[], Some(t)), k) == TransportField(t, k)
  {
  }

  lemma SetSecondsAt(q: Query, key: string, n: nat, k: string)
    ensures Lookup(SetSeconds(q, key, n), k) == Else(if k == key then Seconds(n) else None, Lookup(q, k))
  {
  }

  lemma GrpcTimeouts(q: Query, t: Transport, k: string)
    ensures var q2 := SetSeconds(SetSeconds(SetIf(q, "serviceName", t.serviceName), "idle_timeout", t.idleTimeout),
                                 "health_check_timeout", t.pingTimeout);
            Lookup(q2, k)
            == if k == "serviceName" then Else(Given(t.serviceName), Lookup(q, k))
               else if k == "idle_timeout" then Else(Seconds(t.idleTimeout), Lookup(q, k))
               else if k == "health_check_timeout" then Else(Seconds(t.pingTimeout), Lookup(q, k))
               else Lookup(q, k)
  {
    var q1 := SetIf(q, "serviceName", t.serviceName);
    SetIfAt(q, "serviceName", t.serviceName, k);
    SetSecondsAt(q1, "idle_timeout", t.idleTimeout, k);
    SetSecondsAt(SetSeconds(q1, "idle_timeout", t.idleTimeout), "health_check_timeout", t.pingTimeout, k);
  }

  lemma GrpcFields(t: Transport, k: string)
    requires t.typ == "grpc"
    ensures Lookup(ApplySingboxTransport(map[], Some(t)), k) == TransportField(t, k)
  {
    var q: Query := map["type" := t.typ];
    var q2 := SetSeconds(SetSeconds(SetIf(q, "serviceName", t.serviceName), "idle_timeout", t.idleTimeout),
                         "health_check_timeout", t.pingTimeout);
    var q3 := if t.permitWithoutStream then q2["permit_without_stream" := "1"] else q2;
    GrpcTimeouts(q, t, k);
    SetIfAt(q3, "authority", t.authority, k);
    SetIfAt(SetIf(q3, "authority", t.authority), "user_agent", t.userAgent, k);
    assert map[]["type" := t.typ] == q;
  }

  lemma HttpFields(t: Transport, k: string)
    requires t.typ == "http"
    ensures Lookup(ApplySingboxTransport(map[], Some(t)), k) == TransportField(t, k)
  {
  }

  lemma XhttpFields(t: Transport, k: string)
    requires t.typ == "xhttp"
    ensures Lookup(ApplySingboxTransport(map[], Some(t)), k) == TransportField(t, k)
  {
  }

  lemma TransportFields(tr: Option<Transport>, k: string)
    ensures Lookup(ApplySingboxTransport(map[], tr), k) == TransportField(TransportOf(tr), k)
  {
    if tr.Some? {
      match tr.value.typ {
        case "ws" => WsFields(tr.value, k);
        case "httpupgrade" => UpgradeFields(tr.value, k);
        case "grpc" => GrpcFields(tr.value, k);
        case "http" => HttpFields(tr.value, k);
        case "xhttp" => XhttpFields(tr.value, k);
        case _ =>
      }
    }
  }

  /** What the two blocks say under a name. */
  function BlocksField(t: Transport, tls: Tls, k: string): Option<string> {
    Else(TlsField(tls, k), TransportField(t, k))
  }

  /** A field of the vmess map: the transport is its "net", "type" is left to the header, "tls"
      names TLS and Reality only, and the names are in lower case; what no block says stays. */
  function VmessField(m: Query, t: Transport, tls: Tls, x: string): Option<string> {
    if x == "net" then BlocksField(t, tls, "type")
    else if x == "type" then Some(if x in m then m[x] else "none")
    else if x == "tls" && tls.enabled then BlocksField(t, tls, "security")
    else if x == "allowinsecure" then Else(BlocksField(t, tls, "allowInsecure"), Lookup(m, x))
    else if x == "servicename" then Else(BlocksField(t, tls, "serviceName"), Lookup(m, x))
    else if x == "tls" || x == "allowInsecure" || x == "serviceName" then Lookup(m, x)
    else Else(BlocksField(t, tls, x), Lookup(m, x))
  }

  /** Which key of the query a field is written from, if it is written. */
  function SourceOf(x: string): string {
    if x == "net" then "type" else if x == "tls" then "security"
    else if x == "allowinsecure" then "allowInsecure" else if x == "servicename" then "serviceName"
    else x
  }

  /** What a key of the appliers writes. */
  function WrittenBy(k: string, v: string): map<string, string> {
    if k == "type" then map["net" := v]
    else if k == "security" && (v == "tls" || v == "reality") then map["security" := v, "tls" := v]
    else if k == "allowInsecure" then map["allowinsecure" := v]
    else if k == "serviceName" then map["servicename" := v]
    else map[k := v]
  }

  lemma PlainIsNoPacket(k: string)
    requires k in PLAIN_KEYS
    ensures k != "packetencoding" && k != "allowInsecure" && k != "serviceName"
  {
  }

  lemma ApplierEffect(k: string, v: string)
    requires k in APPLIER_KEYS
    ensures Effect(k, v) == WrittenBy(k, v)
  {
    LowerMixedKeys();
    if k in PLAIN_KEYS {
      LowerPlainKey(k);
      PlainIsNoPacket(k);
    }
  }

  lemma KeyIsSource(k: string, v: string, x: string)
    requires x in WrittenBy(k, v)
    requires k != "net" && k != "tls" && k != "allowinsecure" && k != "servicename"
    ensures k == SourceOf(x) && x != "type" && x != "allowInsecure" && x != "serviceName"
    ensures WrittenBy(k, v)[x] == v && (x == "tls" ==> v == "tls" || v == "reality")
  {
  }

  lemma ApplierIsNoTarget(k: string)
    requires k in APPLIER_KEYS
    ensures k != "net" && k != "tls" && k != "allowinsecure" && k != "servicename"
  {
    OutsideTlsKeys();
    OutsideTransportKeys();
  }

  lemma WriterIsSource(q: Query, x: string, k: string)
    requires q.Keys <= APPLIER_KEYS && Writer(q, q.Keys, x, k)
    ensures k == SourceOf(x) && x != "type" && x != "allowInsecure" && x != "serviceName"
    ensures Effect(k, q[k])[x] == q[k] && (x == "tls" ==> q[k] == "tls" || q[k] == "reality")
  {
    ApplierEffect(k, q[k]);
    ApplierIsNoTarget(k);
    KeyIsSource(k, q[k], x);
  }

  lemma SourceWrites(q: Query, x: string)
    requires q.Keys <= APPLIER_KEYS && SourceOf(x) in q
    requires x != "type" && x != "allowInsecure" && x != "serviceName"
    requires x == "tls" ==> q["security"] == "tls" || q["security"] == "reality"
    ensures Writer(q, q.Keys, x, SourceOf(x))
  {
    ApplierEffect(SourceOf(x), q[SourceOf(x)]);
  }

  /** Whether a key of the query is written to the field. */
  predicate IsWritten(q: Query, x: string) {
    && x != "type" && x != "allowInsecure" && x != "serviceName" && SourceOf(x) in q
    && (x == "tls" ==> q["security"] == "tls" || q["security"] == "reality")
  }

  lemma MergedField(m: Query, q: Query, r: Query, x: string)
    requires q.Keys <= APPLIER_KEYS && "type" in q && Merged(m, q, q.Keys, r)
    ensures Lookup(r, x)
            == if IsWritten(q, x) then Some(q[SourceOf(x)])
               else if x == "type" then Some(if x in m then m[x] else "none")
               else Lookup(m, x)
  {
    assert IsField(m, q, q.Keys, x, Lookup(r, x));
    HasTypeKey(q);
    if IsWritten(q, x) {
      SourceWrites(q, x);
      WriterIsSource(q, x, SourceOf(x));
    } else if k :| Writer(q, q.Keys, x, k) {
      WriterIsSource(q, x, k);
    }
  }

  lemma HasTypeKey(q: Query)
    requires "type" in q
    ensures HasType(q, q.Keys)
  {
    assert Lower("type") == "type";
  }

  lemma BlocksQuery(tr: Option<Transport>, tls: Option<Tls>, k: string)
    ensures Lookup(ApplySingboxTls(ApplySingboxTransport(map[], tr), tls), k)
            == BlocksField(TransportOf(tr), TlsOf(tls), k)
  {
    TransportFields(tr, k);
    TlsFields(ApplySingboxTransport(map[], tr), tls, k);
  }

  lemma SecurityField(tls: Tls, t: Transport)
    ensures var v := BlocksField(t, tls, "security");
            v.Some? && (tls.enabled <==> v.value == "tls" || v.value == "reality")
  {
  }

  /** Field by field, the map says what the blocks say. */
  lemma BlocksAreMerged(m: Query, tr: Option<Transport>, tls: Option<Tls>, r: Query, x: string)
    requires var q := ApplySingboxTls(ApplySingboxTransport(map[], tr), tls); Merged(m, q, q.Keys, r)
    ensures Lookup(r, x) == VmessField(m, TransportOf(tr), TlsOf(tls), x)
  {
    var q := ApplySingboxTls(ApplySingboxTransport(map[], tr), tls);
    AppliersUseTheirKeys(tr, tls);
    BlocksQuery(tr, tls, "type");
    BlocksQuery(tr, tls, "security");
    BlocksQuery(tr, tls, SourceOf(x));
    SecurityField(TlsOf(tls), TransportOf(tr));
    MergedField(m, q, r, x);
  }

  /** The map of a vmess link, from any transport and TLS block. */
  method MergedBlocks(m: Query, tr: Option<Transport>, tls: Option<Tls>) returns (r: Query)
    ensures var q := ApplySingboxTls(ApplySingboxTransport(map[], tr), tls);
            Merged(m, q, q.Keys, r) && forall r' :: Merged(m, q, q.Keys, r') ==> r' == r
    ensures forall x :: Lookup(r, x) == VmessField(m, TransportOf(tr), TlsOf(tls), x)
  {
    var q := ApplySingboxTls(ApplySingboxTransport(map[], tr), tls);
    AppliersUseTheirKeys(tr, tls);
    ApplierKeysNeverClash(q);
    r := MergeQueryIntoVmessMap(m, q);
    forall x
      ensures Lookup(r, x) == VmessField(m, TransportOf(tr), TlsOf(tls), x)
    {
      BlocksAreMerged(m, tr, tls, r, x);
    }
  }
}
