/** How a server finds its RPC port: the operator prints the ports into a ConfigMap, the init
    container's shell script picks one by the ordinal at the end of its pod name. */
module RpcPath {
  import opened Decimal

  const PORT_RPC := 4647
  const ADVERTISE_POD := "pod"
  const ADVERTISE_EXTERNAL := "external"

  /* --------------------------------- Printing --------------------------------- */

  // Each port after a space.
  function Spaced(ports: seq<int>): string {
    if ports == [] then "" else Spaced(ports[..|ports| - 1]) + " " + Itoa(ports[|ports| - 1])
  }

  function Numerals(ports: seq<int>): (r: seq<string>)
    ensures |r| == |ports| && forall k :: 0 <= k < |r| ==> r[k] == Itoa(ports[k])
  {
    if ports == [] then [] else Numerals(ports[..|ports| - 1]) + [Itoa(ports[|ports| - 1])]
  }

  function TrimLeadingSpace(s: string): string {
    if s != "" && s[0] == ' ' then s[1..] else s
  }

  /** The ConfigMap's rpc_ports: the loop writes a space before each port, the first is trimmed. */
  method BuildRpcPorts(ports: seq<int>) returns (s: string)
    ensures s == TrimLeadingSpace(Spaced(ports))
    ensures Words(s) == Numerals(ports)
  {
    var sb := "";
    for n := 0 to |ports|
      invariant sb == Spaced(ports[..n])
    {
      assert ports[..n + 1][..n] == ports[..n];
      sb := sb + " " + Itoa(ports[n]);
    }
    assert ports[..|ports|] == ports;
    WordsOfPorts(ports);
    s := TrimLeadingSpace(sb);
  }

  function StatefulSet(cluster: string): string { cluster + "-server" }

  function PodName(cluster: string, ordinal: nat): string {
    StatefulSet(cluster) + "-" + Itoa(ordinal)
  }

  // External access through a Gateway with user-chosen ports, or through a LoadBalancer.
  datatype ExternalAccess = Gateway(rpcPorts: seq<int>) | LoadBalancer

  function RpcAdvertisePorts(access: ExternalAccess): seq<int> {
    match access
    case Gateway(rpcPorts) => rpcPorts
    case LoadBalancer => [PORT_RPC]
  }

  function RpcAdvertiseStrategy(servers: int): string {
    if servers == 1 then ADVERTISE_EXTERNAL else ADVERTISE_POD
  }

  /* --------------------------------- The shell --------------------------------- */

  predicate Blank(c: char) { c == ' ' || c == '\t' || c == '\n' }

  predicate NoBlanks(s: string) { forall k :: 0 <= k < |s| ==> !Blank(s[k]) }

  function WordLength(s: string): (n: nat)
    ensures n <= |s| && NoBlanks(s[..n]) && (n < |s| ==> Blank(s[n]))
  {
    if s == "" || Blank(s[0]) then 0 else
      var n := 1 + WordLength(s[1..]);
      assert forall k :: 0 < k < n ==> s[k] == s[1..][k - 1];
      n
  }

  // Field splitting of an unquoted expansion: maximal runs of characters that are not blank.
  function Words(s: string): seq<string> {
    if s == "" then [] else if Blank(s[0]) then Words(s[1..])
    else
      var n := WordLength(s);
      [s[..n]] + Words(s[n..])
  }

  // What remains after removing the longest prefix that ends in a dash.
  function AfterLastDash(s: string): (r: string)
    ensures |r| <= |s| && r == s[|s| - |r|..] && '-' !in r && (|r| < |s| ==> s[|s| - |r| - 1] == '-')
  {
    if s == "" || s[|s| - 1] == '-' then "" else
      var r := AfterLastDash(s[..|s| - 1]) + [s[|s| - 1]];
      assert r == s[|s| - |r|..];
      r
  }

  /** The entrypoint's loop: select the word whose index, printed, is the ordinal. */
  method SelectPort(rpcPorts: string, hostname: string) returns (port: string)
    ensures forall k :: 0 <= k < |Words(rpcPorts)| && Itoa(k) == AfterLastDash(hostname) ==> port == Words(rpcPorts)[k]
    ensures (forall k :: 0 <= k < |Words(rpcPorts)| ==> Itoa(k) != AfterLastDash(hostname)) ==> port == ""
  {
    hide AfterLastDash, Words, Itoa;
    var ord := AfterLastDash(hostname);
    var words := Words(rpcPorts);
    port := "";
    for i := 0 to |words|
      invariant forall k :: 0 <= k < i && Itoa(k) == ord ==> port == words[k]
      invariant (forall k :: 0 <= k < i ==> Itoa(k) != ord) ==> port == ""
    {
      if Itoa(i) == ord {
        forall k | 0 <= k < |words| && Itoa(k) == ord
          ensures k == i
        {
          ItoaInjective(i, k);
        }
        port := words[i];
      }
    }
  }

  // The advertised RPC address the script derives.
  function Advertised(strategy: string, podIp: string, gateway: string, port: string): string {
    if strategy == "pod" then podIp + ":4647" else gateway + ":" + port
  }

  /* --------------------------------- Round trip --------------------------------- */

  lemma {:induction false} WordLengthAppend(s: string, t: string)
    requires t != "" ==> Blank(t[0])
    ensures WordLength(s + t) == WordLength(s)
  {
    if s == "" {
      assert s + t == t;
    } else {
      assert (s + t)[1..] == s[1..] + t;
      WordLengthAppend(s[1..], t);
    }
  }

  // Words do not run across a blank.
  lemma {:induction false} WordsAppend(s: string, t: string)
    requires t != "" ==> Blank(t[0])
    ensures Words(s + t) == Words(s) + Words(t)
    decreases |s|
  {
    if s == "" {
      assert s + t == t;
    } else if Blank(s[0]) {
      assert (s + t)[1..] == s[1..] + t;
      WordsAppend(s[1..], t);
    } else {
      WordsAppend(s[WordLength(s)..], t);
      FirstWordAppend(s, t);
    }
  }

  lemma FirstWordAppend(s: string, t: string)
    requires s != "" && !Blank(s[0]) && (t != "" ==> Blank(t[0]))
    ensures var n := WordLength(s); Words(s + t) == [s[..n]] + Words(s[n..] + t)
  {
    var n := WordLength(s);
    WordLengthAppend(s, t);
    assert (s + t)[..n] == s[..n] && (s + t)[n..] == s[n..] + t;
  }

  lemma WordsOfWord(w: string)
    requires w != "" && NoBlanks(w)
    ensures Words(" " + w) == [w]
  {
    assert (" " + w)[1..] == w;
    assert WordLength(w) == |w|;
    assert w[..|w|] == w && w[|w|..] == "";
    assert Words(w) == [w];
  }

  lemma ItoaIsWord(i: int)
    ensures Itoa(i) != "" && NoBlanks(Itoa(i))
  {
    var d := Digits(if i < 0 then -i else i);
    assert NoBlanks(d) && NoBlanks("-" + d);
  }

  lemma WordsSnoc(s: string, i: int)
    ensures Words(s + " " + Itoa(i)) == Words(s) + [Itoa(i)]
  {
    var w := Itoa(i);
    ItoaIsWord(i);
    assert s + " " + w == s + (" " + w);
    WordsAppend(s, " " + w);
    WordsOfWord(w);
  }

  /** Splitting the printed ports gives their numerals back. */
  lemma {:induction false} WordsOfSpaced(ports: seq<int>)
    ensures Words(Spaced(ports)) == Numerals(ports)
  {
    if ports != [] {
      hide Words, Itoa;
      WordsOfSpaced(ports[..|ports| - 1]);
      WordsSnoc(Spaced(ports[..|ports| - 1]), ports[|ports| - 1]);
    } else {
      assert Spaced(ports) == "";
    }
  }

  lemma WordsOfPorts(ports: seq<int>)
    ensures Words(TrimLeadingSpace(Spaced(ports))) == Numerals(ports)
  {
    WordsOfSpaced(ports);
  }

  lemma {:induction false} AfterDash(s: string, r: string)
    requires '-' !in r
    ensures AfterLastDash(s + "-" + r) == r
  {
    var t := s + "-" + r;
    if r != "" {
      var front := r[..|r| - 1];
      AfterDash(s, front);
      assert t[..|t| - 1] == s + "-" + front;
      assert r == front + [r[|r| - 1]];
    }
  }

  /** The suffix of a pod name is its ordinal. */
  lemma {:induction false} SuffixOfPodName(cluster: string, ordinal: nat)
    ensures AfterLastDash(PodName(cluster, ordinal)) == Itoa(ordinal)
  {
    assert '-' !in Itoa(ordinal) by { assert Itoa(ordinal) == Digits(ordinal); }
    AfterDash(StatefulSet(cluster), Itoa(ordinal));
  }

  lemma RpcPortNumeral()
    ensures Itoa(PORT_RPC) == "4647"
  {
    assert Digits(4) == "4" && Digits(46) == "46" && Digits(464) == "464" && Digits(4647) == "4647";
  }

  /** The entrypoint of a pod, end to end: a lone server advertises the gateway address with the
      decimal of its port, a server among several its own address with the port it binds. */
  method Entrypoint(cluster: string, servers: int, access: ExternalAccess, ordinal: nat, podIp: string, gateway: string)
    returns (port: string, rpc: string)
    ensures port == match access
                    case Gateway(ports) => (if ordinal < |ports| then Itoa(ports[ordinal]) else "")
                    case LoadBalancer => (if ordinal == 0 then "4647" else "")
    ensures rpc == if servers == 1 then gateway + ":" + port else podIp + ":4647"
  {
    var ports := RpcAdvertisePorts(access);
    var printed := BuildRpcPorts(ports);
    SuffixOfPodName(cluster, ordinal);
    port := SelectPort(printed, PodName(cluster, ordinal));
    assert ordinal < |ports| ==> Words(printed)[ordinal] == Itoa(ports[ordinal]);
    forall k | 0 <= k < |Words(printed)| && Itoa(k) == Itoa(ordinal)
      ensures k == ordinal
    {
      ItoaInjective(k, ordinal);
    }
    RpcPortNumeral();
    rpc := Advertised(RpcAdvertiseStrategy(servers), podIp, gateway, port);
  }
}
