/** The API server value built from the options, its listen address, and the
    readiness probe's URL. */
module ApiServer {

  import opened Base
  import opened Text
  import AppOptions

  /** The parts of `apiServer` this model keeps: `healthz`, `mode`, `address`.
      The gin engine and the `http.Server` are not modelled. */
  datatype ApiServer = ApiServer(healthz: bool, mode: string, address: string)

  /** `createApiServer`: the settings are copied from the server-run options,
      and the address joins the bind address with the decimal bind port. It
      never fails. */
  function CreateApiServer(cfg: AppOptions.Options): (r: Result<ApiServer, string>)
    ensures r.Ok?
    ensures r.value.healthz == cfg.server.healthz && r.value.mode == cfg.server.mode
    ensures r.value.address == JoinHostPort(cfg.api.bindAddress, Itoa(cfg.api.bindPort))
  {
    Ok(ApiServer(cfg.server.healthz, cfg.server.mode,
                 JoinHostPort(cfg.api.bindAddress, Itoa(cfg.api.bindPort))))
  }

  /** For a bind address without ':' (a host name or an IPv4 address), the
      listen address is host ':' port with exactly one ':', so it splits into the
      host and a field that reads back as the bind port. */
  lemma AddressFields(cfg: AppOptions.Options)
    requires ':' !in cfg.api.bindAddress
    ensures Split(CreateApiServer(cfg).value.address, ':') == [cfg.api.bindAddress, Itoa(cfg.api.bindPort)]
    ensures ParseInt(Split(CreateApiServer(cfg).value.address, ':')[1]) == Some(cfg.api.bindPort)
  {
    ItoaHasNoColon(cfg.api.bindPort);
    JoinHostPortSplits(cfg.api.bindAddress, Itoa(cfg.api.bindPort));
    ItoaRoundTrip(cfg.api.bindPort);
  }

  /** `fmt.Sprintf("http://%s/healthz", hostPort)`. */
  function HttpHealthz(hostPort: string): string
  {
    "http://" + hostPort + "/healthz"
  }

  /** The URL that `ping` probes, as written: the address itself, or for an
      address containing "0.0.0.0" the loopback address "127.0.0.1" with the
      second ':'-separated field of the address as the port. `None` is the
      index-out-of-range panic when the address has no ':'. */
  function HealthUrl(address: string): (url: Option<string>)
    ensures !Contains(address, "0.0.0.0") ==> url == Some(HttpHealthz(address))
    ensures Contains(address, "0.0.0.0") ==>
      (url.Some? <==> |Split(address, ':')| >= 2)
  {
    if Contains(address, "0.0.0.0") then
      var fields := Split(address, ':');
      if |fields| >= 2 then Some(HttpHealthz("127.0.0.1:" + fields[1])) else None
    else Some(HttpHealthz(address))
  }

  /** For a bind address without ':', `ping` never panics and probes the bind
      port: on the loopback address when the address mentions "0.0.0.0",
      otherwise on the address itself. */
  lemma HealthUrlProbesBindPort(host: string, port: int)
    requires ':' !in host
    ensures var address := JoinHostPort(host, Itoa(port));
      HealthUrl(address).Some?
      && (Contains(address, "0.0.0.0") ==> HealthUrl(address).value == HttpHealthz("127.0.0.1:" + Itoa(port)))
      && (!Contains(address, "0.0.0.0") ==> HealthUrl(address).value == HttpHealthz(host + ":" + Itoa(port)))
  {
    ItoaHasNoColon(port);
    JoinHostPortSplits(host, Itoa(port));
  }

  /** A bracketed host that starts with "::" makes the second ':'-field of the
      address empty. */
  lemma BracketedAddressSecondField(host: string, port: string)
    requires |host| >= 2 && host[0] == ':' && host[1] == ':'
    ensures |Split(JoinHostPort(host, port), ':')| >= 2
    ensures Split(JoinHostPort(host, port), ':')[1] == ""
  {
    var a := JoinHostPort(host, port);
    assert a == "[" + host + "]:" + port;
    assert a[0] == '[' && a[1] == ':' && a[2] == ':';
    var r2 := Split(a[3..], ':');
    assert a[1..][1..] == a[2..] && a[2..][1..] == a[3..];
    assert Split(a[2..], ':') == [""] + r2;
    assert Split(a[1..], ':') == [""] + ([""] + r2);
    assert Split(a, ':') == [[a[0]] + ""] + ([""] + r2);
  }

  /** Whatever the host mentions, its bracketed address mentions too. */
  lemma BracketedAddressContains(host: string, port: string, sub: string)
    requires ':' in host && Contains(host, sub)
    ensures Contains(JoinHostPort(host, port), sub)
  {
    var a := JoinHostPort(host, port);
    assert a == "[" + host + "]:" + port;
    ContainsIff(host, sub);
    var i :| OccursAt(host, sub, i);
    assert a[i + 1..i + 1 + |sub|] == host[i..i + |sub|];
    assert OccursAt(a, sub, i + 1);
    ContainsIff(a, sub);
  }

  /** The field-[1] port extraction is wrong for an IPv6 bind address that
      starts with "::" and mentions "0.0.0.0": `JoinHostPort` brackets it, the
      second ':'-field of "[::…]:port" is empty, and the probe URL has no
      port. */
  lemma HealthUrlLosesPortForIpv6(host: string, port: string)
    requires |host| >= 2 && host[0] == ':' && host[1] == ':'
    requires Contains(host, "0.0.0.0")
    ensures HealthUrl(JoinHostPort(host, port)) == Some(HttpHealthz("127.0.0.1:"))
  {
    BracketedAddressSecondField(host, port);
    BracketedAddressContains(host, port, "0.0.0.0");
    assert "127.0.0.1:" + "" == "127.0.0.1:";
  }

  /** The concrete input: the IPv4-mapped unspecified address
      "::ffff:0.0.0.0" on port 9099 is probed at "http://127.0.0.1:/healthz". */
  lemma HealthUrlIpv6Example()
    ensures HealthUrl(JoinHostPort("::ffff:0.0.0.0", "9099")) == Some(HttpHealthz("127.0.0.1:"))
  {
    var host := "::ffff:0.0.0.0";
    assert OccursAt(host, "0.0.0.0", 7);
    ContainsIff(host, "0.0.0.0");
    HealthUrlLosesPortForIpv6(host, "9099");
  }

  /** The probe URL taking the port from the options instead of from the
      address: loopback at the bind port when the address mentions "0.0.0.0",
      the address itself otherwise. */
  function HealthUrlFromPort(host: string, port: int): (url: string)
    ensures var address := JoinHostPort(host, Itoa(port));
      Contains(address, "0.0.0.0") ==> url == HttpHealthz("127.0.0.1:" + Itoa(port))
  {
    var address := JoinHostPort(host, Itoa(port));
    if Contains(address, "0.0.0.0") then HttpHealthz("127.0.0.1:" + Itoa(port))
    else HttpHealthz(address)
  }

  /** The port-based URL always probes some host at the bind port, and it
      agrees with the as-written URL on every host without ':'. */
  lemma HealthUrlFromPortNamesPort(host: string, port: int)
    ensures exists h: string :: HealthUrlFromPort(host, port) == HttpHealthz(h + ":" + Itoa(port))
    ensures ':' !in host ==> HealthUrl(JoinHostPort(host, Itoa(port))) == Some(HealthUrlFromPort(host, port))
  {
    var address := JoinHostPort(host, Itoa(port));
    var p := Itoa(port);
    if Contains(address, "0.0.0.0") {
      assert "127.0.0.1:" + p == "127.0.0.1" + ":" + p;
      assert HealthUrlFromPort(host, port) == HttpHealthz("127.0.0.1" + ":" + p);
    } else if ':' in host {
      assert address == ("[" + host + "]") + ":" + p;
      assert HealthUrlFromPort(host, port) == HttpHealthz(("[" + host + "]") + ":" + p);
    } else {
      assert HealthUrlFromPort(host, port) == HttpHealthz(host + ":" + p);
    }
    if ':' !in host {
      HealthUrlProbesBindPort(host, port);
    }
  }

  /** How `Run` ends as far as the probe decides it: the probe was not run or
      succeeded, the probe request could not be built (its error is returned),
      or deriving the URL panicked. */
  datatype ProbeOutcome = NotProbed | ProbeSucceeded | ProbeFailed(err: string) | UrlPanicked

  /** The probe step of `Run`: only with `healthz` set is the URL derived and
      probed. `probe` is the abstract probe loop, mapping the URL to the
      request error it returns (`None`: the router answered 200). */
  function ProbeStep(s: ApiServer, probe: string -> Option<string>): (o: ProbeOutcome)
    ensures !s.healthz <==> o == NotProbed
    ensures s.healthz && HealthUrl(s.address).Some? ==>
      (o == ProbeSucceeded <==> probe(HealthUrl(s.address).value) == None)
    ensures o == UrlPanicked <==> s.healthz && HealthUrl(s.address).None?
  {
    if !s.healthz then NotProbed
    else
      match HealthUrl(s.address)
      case None => UrlPanicked
      case Some(url) =>
        match probe(url)
        case None => ProbeSucceeded
        case Some(e) => ProbeFailed(e)
  }
}
