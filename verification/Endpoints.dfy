/**
 When two listen addresses, or a listen address and an exposed host and port,
 compete for the same TCP endpoint. `parse` stands for net.SplitHostPort
 followed by strconv.Atoi: None where either fails.
 */
module Endpoints {
  import opened Base
  import opened Text

  type Parser = string -> Option<(string, int)>

  const LOOPBACK := "127.0.0.1"

  function OrLoopback(host: string): string {
    var h := TrimSpace(host);
    if h == "" then LOOPBACK else h
  }

  predicate FuzzyHostMatch(a: string, b: string) {
    var (na, nb) := (OrLoopback(a), OrLoopback(b));
    || na == nb
    || ((na == LOOPBACK || na == "localhost") && (nb == LOOPBACK || nb == "localhost"))
  }

  function TcpListenPort(parse: Parser, addr: string): Option<int> {
    match parse(TrimSpace(addr))
    case Some(parts) => if parts.1 < 1 then None else Some(parts.1)
    case None => None
  }

  /** listenHostPortCollidesExpose. */
  predicate ListenCollidesExpose(parse: Parser, listen: string, host: string, port: int) {
    TcpListenPort(parse, listen) == Some(port)
    && match parse(TrimSpace(listen))
       case Some(parts) => FuzzyHostMatch(parts.0, OrLoopback(host))
       case None => false
  }

  predicate TcpBindingsEquiv(parse: Parser, a: string, b: string) {
    var (ta, tb) := (TrimSpace(a), TrimSpace(b));
    ta != "" && tb != ""
    && match (parse(ta), parse(tb))
       case (Some(pa), Some(pb)) => pa.1 == pb.1 && FuzzyHostMatch(pa.0, pb.0)
       case _ => ta == tb
  }

  /** What a row occupies: a canonical host and port, or an address nobody can parse. */
  datatype Endpoint = At(host: string, port: int) | Unparsed(addr: string)

  function CanonicalHost(host: string): string {
    var h := OrLoopback(host);
    if h == "localhost" then LOOPBACK else h
  }

  function ListenEndpoint(parse: Parser, listen: string): Endpoint {
    match parse(TrimSpace(listen))
    case Some(parts) => At(CanonicalHost(parts.0), parts.1)
    case None => Unparsed(TrimSpace(listen))
  }

  function ExposedEndpoint(host: string, port: int): Endpoint {
    At(CanonicalHost(host), port)
  }

  lemma OrLoopbackIdempotent(host: string)
    ensures OrLoopback(OrLoopback(host)) == OrLoopback(host)
  {
    TrimSpaceTrims(host);
    assert TrimSpace(LOOPBACK) == LOOPBACK;
  }

  /** A host stands for itself, and a blank one and "localhost" for 127.0.0.1. */
  lemma CanonicalHosts(host: string, name: string)
    requires IsTrimmed(name) && Padded(host, name)
    ensures OrLoopback(host) == if name == "" then "127.0.0.1" else name
    ensures CanonicalHost(host) == if name == "" || name == "localhost" then "127.0.0.1" else name
  {
    PaddedTrims(host, name);
    hide TrimSpace, Padded;
  }

  /** An address that is split names its host and port, and any other names itself; blanks around it do not matter. */
  lemma ListenEndpoints(parse: Parser, listen: string, addr: string)
    requires IsTrimmed(addr) && Padded(listen, addr)
    ensures ListenEndpoint(parse, listen) == match parse(addr)
              case Some((host, port)) => At(CanonicalHost(host), port)
              case None => Unparsed(addr)
    ensures TcpListenPort(parse, listen) == match parse(addr)
              case Some((_, port)) => if 1 <= port then Some(port) else None
              case None => None
  {
    PaddedTrims(listen, addr);
    hide TrimSpace, Padded, CanonicalHost;
  }

  lemma FuzzyIffCanonical(a: string, b: string)
    ensures FuzzyHostMatch(a, b) <==> CanonicalHost(a) == CanonicalHost(b)
  {
  }

  /** Two nonblank listen addresses conflict exactly when they denote the same endpoint. */
  lemma BindingsEquivIffSameEndpoint(parse: Parser, a: string, b: string)
    ensures TcpBindingsEquiv(parse, a, b) <==>
            TrimSpace(a) != "" && TrimSpace(b) != "" && ListenEndpoint(parse, a) == ListenEndpoint(parse, b)
  {
    match (parse(TrimSpace(a)), parse(TrimSpace(b)))
    case (Some(pa), Some(pb)) => FuzzyIffCanonical(pa.0, pb.0);
    case _ =>
  }

  /** A listen address conflicts with an exposed port exactly when both denote the same endpoint. */
  lemma CollidesIffSameEndpoint(parse: Parser, listen: string, host: string, port: int)
    ensures ListenCollidesExpose(parse, listen, host, port) <==>
            port >= 1 && ListenEndpoint(parse, listen) == ExposedEndpoint(host, port)
  {
    match parse(TrimSpace(listen))
    case Some(parts) =>
      OrLoopbackIdempotent(host);
      FuzzyIffCanonical(parts.0, OrLoopback(host));
    case None =>
  }

  /** The conflict test on listen addresses is symmetric and transitive. */
  lemma BindingsEquivIsPartialEquivalence(parse: Parser, a: string, b: string, c: string)
    ensures TcpBindingsEquiv(parse, a, b) ==> TcpBindingsEquiv(parse, b, a)
    ensures TcpBindingsEquiv(parse, a, b) && TcpBindingsEquiv(parse, b, c) ==> TcpBindingsEquiv(parse, a, c)
  {
    BindingsEquivIffSameEndpoint(parse, a, b);
    BindingsEquivIffSameEndpoint(parse, b, a);
    BindingsEquivIffSameEndpoint(parse, b, c);
    BindingsEquivIffSameEndpoint(parse, a, c);
  }
}
