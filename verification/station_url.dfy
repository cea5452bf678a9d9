/**
 * The station URL the provisioning handler stores for a client: a PRUDP
 * address with the fields address, port, PID, sid, type and RVCID in that
 * order, separated by ';'. `Parse` is the independent reading of the format
 * used to state that the rendering loses nothing.
 */
module StationUrl {
  import opened Options
  import opened Decimal

  const Scheme: string := "prudp:/address="

  /** The fields a station URL carries. */
  datatype Station = Station(ip: string, port: nat, pid: nat, rvcid: nat)

  /**
   * The URL built at servers/nintendocreateaccount.go:101: exactly its six
   * fields, in order, separated by ';'.
   */
  function Render(ip: string, port: nat, pid: nat, rvcid: nat): (url: string)
    ensures url == Join(Fields(ip, port, pid, rvcid), ';')
  {
    JoinSix(Scheme + ip, NatToString(port), NatToString(pid), NatToString(rvcid));
    Scheme + ip + ";port=" + NatToString(port) + ";PID=" + NatToString(pid)
      + ";sid=15;type=3;RVCID=" + NatToString(rvcid)
  }

  lemma JoinSix(a: string, p: string, d: string, r: string)
    ensures a + ";port=" + p + ";PID=" + d + ";sid=15;type=3;RVCID=" + r
         == Join([a, "port=" + p, "PID=" + d, "sid=15", "type=3", "RVCID=" + r], ';')
  {
    var fs := [a, "port=" + p, "PID=" + d, "sid=15", "type=3", "RVCID=" + r];
    JoinTail(r);
    assert fs[3..] == ["sid=15", "type=3", "RVCID=" + r];
    assert Join(fs[2..], ';') == "PID=" + d + ";" + ("sid=15;type=3;RVCID=" + r);
    assert Join(fs[1..], ';') == "port=" + p + ";" + ("PID=" + d + ";" + ("sid=15;type=3;RVCID=" + r));
  }

  /** The three constant-led fields at the end of every station URL. */
  lemma JoinTail(r: string)
    ensures Join(["sid=15", "type=3", "RVCID=" + r], ';') == "sid=15;type=3;RVCID=" + r
  {
    var fs := ["sid=15", "type=3", "RVCID=" + r];
    assert Join(fs[2..], ';') == "RVCID=" + r;
    assert Join(fs[1..], ';') == "type=3;RVCID=" + r;
  }

  /** Splits `s` at every occurrence of `sep`; there is always one more part than separators. */
  function Split(s: string, sep: char): (parts: seq<string>)
    ensures |parts| > 0
    decreases |s|
  {
    if |s| == 0 then [""]
    else
      var rest := Split(s[1..], sep);
      if s[0] == sep then [""] + rest else [[s[0]] + rest[0]] + rest[1..]
  }

  /** `key` followed by a non-empty decimal numeral, read back as its value. */
  function NumericField(part: string, key: string): (r: Option<nat>)
  {
    if |key| < |part| && part[..|key|] == key && AllDigits(part[|key|..])
    then Some(ParseDecimal(part[|key|..]))
    else None
  }

  /** Reads a station URL back into its fields, or None when it is not of this shape. */
  function Parse(url: string): (r: Option<Station>)
  {
    var parts := Split(url, ';');
    if |parts| != 6 || |parts[0]| < |Scheme| || parts[0][..|Scheme|] != Scheme
      || parts[3] != "sid=15" || parts[4] != "type=3"
    then None
    else
      match (NumericField(parts[1], "port="), NumericField(parts[2], "PID="), NumericField(parts[5], "RVCID="))
      case (Some(port), Some(pid), Some(rvcid)) => Some(Station(parts[0][|Scheme|..], port, pid, rvcid))
      case _ => None
  }

  lemma {:induction false} SplitNoSeparator(a: string, sep: char)
    requires sep !in a
    ensures Split(a, sep) == [a]
    decreases |a|
  {
    if |a| > 0 {
      SplitNoSeparator(a[1..], sep);
      assert [a[0]] + a[1..] == a;
    }
  }

  lemma {:induction false} SplitAtFirst(a: string, sep: char, b: string)
    requires sep !in a
    ensures Split(a + [sep] + b, sep) == [a] + Split(b, sep)
    decreases |a|
  {
    var s := a + [sep] + b;
    if |a| == 0 {
      assert s[1..] == b;
    } else {
      assert s[1..] == a[1..] + [sep] + b;
      SplitAtFirst(a[1..], sep, b);
      assert [a[0]] + a[1..] == a;
    }
  }

  lemma DigitsHaveNoSemicolon(s: string)
    requires AllDigits(s)
    ensures ';' !in s
  {
  }

  lemma NumericFieldOf(key: string, n: nat)
    ensures NumericField(key + NatToString(n), key) == Some(n)
  {
    var part := key + NatToString(n);
    assert part[..|key|] == key;
    assert part[|key|..] == NatToString(n);
    ParseNatToString(n);
  }

  /** Joins non-empty `parts` with `sep` between neighbours. */
  function Join(parts: seq<string>, sep: char): string
    requires |parts| > 0
  {
    if |parts| == 1 then parts[0] else parts[0] + [sep] + Join(parts[1..], sep)
  }

  /** Splitting undoes joining when no part holds the separator. */
  lemma {:induction false} SplitJoin(parts: seq<string>, sep: char)
    requires |parts| > 0
    requires forall k :: 0 <= k < |parts| ==> sep !in parts[k]
    ensures Split(Join(parts, sep), sep) == parts
    decreases |parts|
  {
    if |parts| == 1 {
      SplitNoSeparator(parts[0], sep);
    } else {
      SplitJoin(parts[1..], sep);
      SplitAtFirst(parts[0], sep, Join(parts[1..], sep));
      assert [parts[0]] + parts[1..] == parts;
    }
  }

  /** The fields of a station URL in their fixed order. */
  function Fields(ip: string, port: nat, pid: nat, rvcid: nat): seq<string>
  {
    [Scheme + ip, "port=" + NatToString(port), "PID=" + NatToString(pid),
     "sid=15", "type=3", "RVCID=" + NatToString(rvcid)]
  }

  lemma RenderFields(ip: string, port: nat, pid: nat, rvcid: nat)
    requires ';' !in ip
    ensures Split(Render(ip, port, pid, rvcid), ';') == Fields(ip, port, pid, rvcid)
  {
    var fs := Fields(ip, port, pid, rvcid);
    DigitsHaveNoSemicolon(NatToString(port));
    DigitsHaveNoSemicolon(NatToString(pid));
    DigitsHaveNoSemicolon(NatToString(rvcid));
    SplitJoin(fs, ';');
  }

  /** Every field of a station URL can be read back from it, provided the address holds no ';'. */
  lemma {:induction false} ParseRender(ip: string, port: nat, pid: nat, rvcid: nat)
    requires ';' !in ip
    ensures Parse(Render(ip, port, pid, rvcid)) == Some(Station(ip, port, pid, rvcid))
  {
    RenderFields(ip, port, pid, rvcid);
    NumericFieldOf("port=", port);
    NumericFieldOf("PID=", pid);
    NumericFieldOf("RVCID=", rvcid);
    assert (Scheme + ip)[..|Scheme|] == Scheme;
    assert (Scheme + ip)[|Scheme|..] == ip;
  }

  /** The worked example: address 10.0.0.5, port 1234, PID 42, connection id 7. */
  lemma RenderExample()
    ensures Render("10.0.0.5", 1234, 42, 7)
         == "prudp:/address=10.0.0.5;port=1234;PID=42;sid=15;type=3;RVCID=7"
  {
    assert NatToString(1234) == "1234";
    assert NatToString(42) == "42";
    assert NatToString(7) == "7";
    ExampleText();
  }

  lemma ExampleText()
    ensures Scheme + "10.0.0.5" + ";port=" + "1234" + ";PID=" + "42" + ";sid=15;type=3;RVCID=" + "7"
         == "prudp:/address=10.0.0.5;port=1234;PID=42;sid=15;type=3;RVCID=7"
  {
    ExampleAddress();
    ExamplePid();
    ExampleTail();
  }

  lemma ExampleAddress()
    ensures Scheme + "10.0.0.5" + ";port=" + "1234" == "prudp:/address=10.0.0.5;port=1234"
  {
    assert Scheme + "10.0.0.5" == "prudp:/address=10.0.0.5";
    assert "prudp:/address=10.0.0.5" + ";port=" == "prudp:/address=10.0.0.5;port=";
  }

  lemma ExamplePid()
    ensures "prudp:/address=10.0.0.5;port=1234" + ";PID=" + "42" == "prudp:/address=10.0.0.5;port=1234;PID=42"
  {
    assert "prudp:/address=10.0.0.5;port=1234" + ";PID=" == "prudp:/address=10.0.0.5;port=1234;PID=";
  }

  lemma ExampleTail()
    ensures "prudp:/address=10.0.0.5;port=1234;PID=42" + ";sid=15;type=3;RVCID=" + "7"
         == "prudp:/address=10.0.0.5;port=1234;PID=42;sid=15;type=3;RVCID=7"
  {
    assert "prudp:/address=10.0.0.5;port=1234;PID=42" + ";sid=15;type=3;RVCID="
        == "prudp:/address=10.0.0.5;port=1234;PID=42;sid=15;type=3;RVCID=";
  }
}
