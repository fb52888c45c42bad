/** Canonical form of managed client configurations, on parsed tables. */
module ManagedConfig {
  import opened Wrappers

  datatype Value = Text(text: string) | List(items: seq<Value>) | Number(number: int) | Flag(flag: bool)

  type Table = map<string, Value>

  datatype ConfigError = BadAccess | CertificateSkipped | BadAdvanced | BadServerList | BadCertMode

  datatype Access = Access(server: string, traffic: seq<string>) {
    /** The data-plane servers; without any, the subscription server itself. */
    function Resolved(): (r: seq<string>)
      ensures r != []
    {
      if traffic == [] then [server] else traffic
    }
  }

  /** The checks whose inner syntax is not modelled: blank strings, endpoint addresses, advanced fields. */
  datatype Syntax = Syntax(blank: string -> bool, endpoint: string -> bool, advanced: Table -> bool) {
    /** An endpoint address is not blank, and the empty string is. */
    ghost predicate Sound() {
      blank("") && forall s :: endpoint(s) ==> !blank(s)
    }

    ghost predicate ValidAccess(a: Access) {
      && a.server != "" && endpoint(a.server)
      && (forall s <- a.traffic :: endpoint(s))
      && (forall i, j :: 0 <= i < j < |a.traffic| ==> a.traffic[i] != a.traffic[j])
    }

    ghost predicate ValidAdvanced(t: Table) {
      t.Keys !! REJECTED && advanced(t)
    }
  }

  const IDENTITY: set<string> :=
    {"network_code", "device_id", "subscription", "event_script", "no_tun", "config_name", "device_name", "ip"}

  const BASE: set<string> := {"server", "cert_mode", "device_name", "ip"}

  const REJECTED: set<string> :=
    {"server", "cert_mode", "device_name", "ip", "subscription", "event_script", "no_tun", "config_name"}

  function Texts(strings: seq<string>): seq<Value> {
    if strings == [] then [] else [Text(strings[0])] + Texts(strings[1..])
  }

  /** The strings of a list, or nothing if some item is not a string. */
  function Strings(values: seq<Value>): Option<seq<string>> {
    if values == [] then Some([])
    else
      var rest := Strings(values[1..]);
      if values[0].Text? && rest.Some? then Some([values[0].text] + rest.value) else None
  }

  lemma {:induction false} StringsOfTexts(strings: seq<string>)
    ensures Strings(Texts(strings)) == Some(strings)
  {
    if strings != [] {
      StringsOfTexts(strings[1..]);
      assert Texts(strings)[1..] == Texts(strings[1..]);
      assert strings == [strings[0]] + strings[1..];
    }
  }

  lemma TextsInjective(a: seq<string>, b: seq<string>)
    requires Texts(a) == Texts(b)
    ensures a == b
  {
    StringsOfTexts(a);
    StringsOfTexts(b);
  }

  ghost function Canonicalize(x: Syntax, table: Table, access: Access, certMode: string): Result<Table, ConfigError> {
    if access.server != "" && !x.ValidAccess(access) then Err(BadAccess)
    else if certMode == "skip" then Err(CertificateSkipped)
    else
      var kept := table - (IDENTITY + BASE);
      if !x.ValidAdvanced(kept) then Err(BadAdvanced)
      else Ok(kept["server" := List(Texts(access.Resolved()))]["cert_mode" := Text(certMode)])
  }

  /** The server list of a stored table; absent means empty. */
  function StoredServers(table: Table): Option<seq<string>> {
    if "server" !in table then Some([])
    else if table["server"].List? then Strings(table["server"].items)
    else None
  }

  function StoredCertMode(table: Table): Option<string> {
    if "cert_mode" !in table then Some("standard")
    else if table["cert_mode"].Text? then Some(table["cert_mode"].text)
    else None
  }

  /** Records without a subscription server use the first listed server in its place. */
  function StoredAccess(servers: seq<string>, subscription: Option<string>): Access {
    if subscription.Some? then Access(subscription.value, servers)
    else if servers == [] then Access("", [])
    else Access(servers[0], servers[1..])
  }

  ghost function CanonicalizeStored(x: Syntax, table: Table, recorded: Option<string>): Result<Table, ConfigError> {
    var t := table - IDENTITY;
    var servers, certMode := StoredServers(t), StoredCertMode(t);
    if servers.None? then Err(BadServerList)
    else if certMode.None? then Err(BadCertMode)
    else
      var subscription := if recorded.Some? && !x.blank(recorded.value) then recorded else None;
      var access := StoredAccess(servers.value, subscription);
      if access.server != "" && !x.ValidAccess(access) then Err(BadAccess)
      else if !x.ValidAdvanced(t - BASE) then Err(BadAdvanced)
      else Canonicalize(x, t - BASE, access, certMode.value)
  }

  /** What canonicalisation leaves, field by field. */
  lemma CanonicalFields(x: Syntax, table: Table, access: Access, certMode: string)
    requires Canonicalize(x, table, access, certMode).Ok?
    ensures var u := Canonicalize(x, table, access, certMode).value;
            && u - IDENTITY == u
            && StoredServers(u) == Some(access.Resolved())
            && StoredCertMode(u) == Some(certMode)
            && u - BASE == table - (IDENTITY + BASE)
            && certMode != "skip" && x.ValidAdvanced(u - BASE)
  {
    var u := Canonicalize(x, table, access, certMode).value;
    StringsOfTexts(access.Resolved());
    assert u - BASE == table - (IDENTITY + BASE);
    assert u - IDENTITY == u;
  }

  /**
   A configuration is accepted exactly if its servers are valid, certificates are
   checked, and its advanced fields are; it then keeps exactly those fields beside
   the servers and the certificate mode.
   */
  lemma CanonicalizeSucceedsIff(x: Syntax, table: Table, access: Access, certMode: string, key: string)
    ensures var r := Canonicalize(x, table, access, certMode);
            && (r.Ok? <==>
                  && (access.server == "" || x.ValidAccess(access)) && certMode != "skip"
                  && x.ValidAdvanced(table - (IDENTITY + BASE)))
            && (r.Ok? ==>
                  && Get(r.value, "server") ==
                     Some(List(Texts(if access.traffic == [] then [access.server] else access.traffic)))
                  && Get(r.value, "cert_mode") == Some(Text(certMode))
                  && (key != "server" && key != "cert_mode" ==>
                        Get(r.value, key) ==
                        if key in
                             {"network_code", "device_id", "subscription", "event_script", "no_tun", "config_name",
                              "device_name", "ip"}
                        then None else Get(table, key)))
  {
  }

  lemma {:induction false} TextsOfStrings(values: seq<Value>)
    ensures Strings(values).Some? ==> values == Texts(Strings(values).value)
  {
    if values != [] {
      TextsOfStrings(values[1..]);
      assert values == [values[0]] + values[1..];
      if Strings(values).Some? {
        assert Strings(values).value[1..] == Strings(values[1..]).value;
      }
    }
  }

  /** A table stores a list of strings, or none; and a certificate mode, by default the standard one. */
  lemma StoredFields(table: Table, servers: seq<string>, certMode: string)
    ensures StoredServers(table) == Some(servers) <==>
            if "server" in table then table["server"] == List(Texts(servers)) else servers == []
    ensures StoredCertMode(table) == Some(certMode) <==>
            if "cert_mode" in table then table["cert_mode"] == Text(certMode) else certMode == "standard"
  {
    StringsOfTexts(servers);
    if "server" in table && table["server"].List? {
      TextsOfStrings(table["server"].items);
    }
  }

  /**
   A stored configuration is accepted exactly if its server list and certificate
   mode have the right types and the configuration they make up is accepted. The
   recorded subscription server comes first; without one, the first listed server
   takes its place.
   */
  lemma StoredSucceedsIff(x: Syntax, table: Table, recorded: Option<string>)
    ensures var r := CanonicalizeStored(x, table, recorded);
            var t := table - IDENTITY;
            var servers, certMode := StoredServers(t), StoredCertMode(t);
            var hasServer := recorded.Some? && !x.blank(recorded.value);
            r.Ok? <==>
              && servers.Some? && certMode.Some?
              && var access :=
                   if hasServer then Access(recorded.value, servers.value)
                   else if servers.value == [] then Access("", [])
                   else Access(servers.value[0], servers.value[1..]);
                 Canonicalize(x, t - BASE, access, certMode.value).Ok?
  {
    var t := table - IDENTITY;
    assert t - BASE - (IDENTITY + BASE) == t - BASE;
  }

  /** Canonicalising a canonical table with the access that gives the same servers gives it back. */
  lemma Recanonicalize(x: Syntax, table: Table, access: Access, certMode: string, again: Access)
    requires Canonicalize(x, table, access, certMode).Ok?
    requires again.server != "" ==> x.ValidAccess(again)
    ensures var u := Canonicalize(x, table, access, certMode).value;
            var r := Canonicalize(x, u - BASE, again, certMode);
            r.Ok? && (r.value == u <==> again.Resolved() == access.Resolved())
  {
    CanonicalFields(x, table, access, certMode);
    var u := Canonicalize(x, table, access, certMode).value;
    var kept := u - BASE;
    assert kept - (IDENTITY + BASE) == kept;
    var r := Canonicalize(x, kept, again, certMode).value;
    assert u == kept["server" := List(Texts(access.Resolved()))]["cert_mode" := Text(certMode)];
    assert r == kept["server" := List(Texts(again.Resolved()))]["cert_mode" := Text(certMode)];
    if r == u {
      assert r["server"] == u["server"];
      TextsInjective(again.Resolved(), access.Resolved());
    }
  }

  lemma ResolvedIsValid(x: Syntax, a: Access)
    requires x.ValidAccess(a)
    ensures x.ValidAccess(Access(a.server, a.Resolved()))
  {
  }

  /** A table made for a non-empty subscription server is a fixed point of the stored form under that server. */
  lemma CanonicalIsFixedPoint(x: Syntax, table: Table, access: Access, certMode: string)
    requires x.Sound() && access.server != ""
    requires Canonicalize(x, table, access, certMode).Ok?
    ensures var u := Canonicalize(x, table, access, certMode).value;
            CanonicalizeStored(x, u, Some(access.server)) == Ok(u)
  {
    CanonicalFields(x, table, access, certMode);
    ResolvedIsValid(x, access);
    Recanonicalize(x, table, access, certMode, Access(access.server, access.Resolved()));
  }

  /** With its subscription server recorded, a stored configuration is canonical after one pass. */
  lemma StoredIsIdempotent(x: Syntax, table: Table, server: string)
    requires x.Sound() && !x.blank(server)
    requires CanonicalizeStored(x, table, Some(server)).Ok?
    ensures var u := CanonicalizeStored(x, table, Some(server)).value;
            CanonicalizeStored(x, u, Some(server)) == Ok(u)
  {
    var t := table - IDENTITY;
    CanonicalIsFixedPoint(x, t - BASE, Access(server, StoredServers(t).value), StoredCertMode(t).value);
  }

  /** The server lists on which a record without a subscription server is stable after one pass. */
  ghost predicate SettlesAtOnce(x: Syntax, servers: seq<string>) {
    || |servers| <= 1
    || (|servers| == 2 && (servers[0] != "" || servers[1] == "" || x.endpoint(servers[1])))
  }

  /** Without a recorded server each pass strips one server, so a second pass changes nothing exactly on these lists. */
  lemma LegacyIsIdempotentIff(x: Syntax, table: Table)
    requires x.Sound()
    requires CanonicalizeStored(x, table, None).Ok?
    ensures var u := CanonicalizeStored(x, table, None).value;
            CanonicalizeStored(x, u, None) == Ok(u) <==> SettlesAtOnce(x, StoredServers(table - IDENTITY).value)
  {
    var t := table - IDENTITY;
    var servers, certMode := StoredServers(t).value, StoredCertMode(t).value;
    var access := StoredAccess(servers, None);
    var u := CanonicalizeStored(x, table, None).value;
    CanonicalFields(x, t - BASE, access, certMode);
    var again := StoredAccess(access.Resolved(), None);
    if again.server != "" && !x.ValidAccess(again) {
      LegacySecondPass(x, servers);
    } else {
      Recanonicalize(x, t - BASE, access, certMode, again);
      LegacySecondPass(x, servers);
    }
  }

  lemma LegacySecondPass(x: Syntax, servers: seq<string>)
    requires var access := StoredAccess(servers, None); access.server != "" ==> x.ValidAccess(access)
    ensures var access := StoredAccess(servers, None);
            var again := StoredAccess(access.Resolved(), None);
            SettlesAtOnce(x, servers) <==>
              (again.server != "" ==> x.ValidAccess(again)) && again.Resolved() == access.Resolved()
  {
    var access := StoredAccess(servers, None);
    var first := access.Resolved();
    var again := StoredAccess(first, None);
    if |servers| >= 3 {
      assert first == servers[1..] && |again.Resolved()| == |first| - 1;
    } else if |servers| == 2 {
      assert first == [servers[1]] && again == Access(servers[1], []);
      assert servers[1..][0] == servers[1];
    } else if |servers| == 1 {
      assert first == [servers[0]];
    }
  }

  // ---------- a record that changes twice ----------

  const PLAIN := Syntax((s: string) => s == "", (s: string) => s != "", (t: Table) => true)

  function ServerTable(servers: seq<string>, certMode: string): Table {
    map["server" := List(Texts(servers)), "cert_mode" := Text(certMode)]
  }

  /** On a table with three servers each of two passes strips one. */
  lemma LegacyRecordChangesTwice()
    ensures PLAIN.Sound()
    ensures CanonicalizeStored(PLAIN, ServerTable(["a", "b", "c"], "standard"), None) ==
            Ok(ServerTable(["b", "c"], "standard"))
    ensures CanonicalizeStored(PLAIN, ServerTable(["b", "c"], "standard"), None) == Ok(ServerTable(["c"], "standard"))
    ensures ServerTable(["c"], "standard") != ServerTable(["b", "c"], "standard")
  {
    StripsFirst(["a", "b", "c"]);
    StripsFirst(["b", "c"]);
    assert ["a", "b", "c"][1..] == ["b", "c"] && ["b", "c"][1..] == ["c"];
    StringsOfTexts(["c"]);
    StringsOfTexts(["b", "c"]);
    assert ServerTable(["c"], "standard")["server"] != ServerTable(["b", "c"], "standard")["server"];
  }

  lemma StripsFirst(servers: seq<string>)
    requires |servers| >= 2 && (forall s <- servers :: s != "")
    requires forall i, j :: 0 <= i < j < |servers| ==> servers[i] != servers[j]
    ensures CanonicalizeStored(PLAIN, ServerTable(servers, "standard"), None) ==
            Ok(ServerTable(servers[1..], "standard"))
  {
    var t := ServerTable(servers, "standard");
    TableFields(servers);
    hide ServerTable, StoredServers, StoredCertMode, Canonicalize;
    assert servers[0] in servers && forall s <- servers[1..] :: s in servers;
    CanonicalOfEmpty(Access(servers[0], servers[1..]));
  }

  lemma TableFields(servers: seq<string>)
    ensures var t := ServerTable(servers, "standard");
            && t - IDENTITY == t && t - BASE == map[]
            && StoredServers(t) == Some(servers) && StoredCertMode(t) == Some("standard")
  {
    StringsOfTexts(servers);
  }

  lemma CanonicalOfEmpty(access: Access)
    requires PLAIN.ValidAccess(access)
    ensures Canonicalize(PLAIN, map[], access, "standard") == Ok(ServerTable(access.Resolved(), "standard"))
  {
    var none: Table := map[];
    assert none - (IDENTITY + BASE) == none;
    assert none["server" := List(Texts(access.Resolved()))]["cert_mode" := Text("standard")] ==
           ServerTable(access.Resolved(), "standard");
  }
}
