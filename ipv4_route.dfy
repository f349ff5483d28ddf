/**
 * The IPv4 route parser (Util/NEIPv4Route+Util.swift): a route is written
 * `a.b.c.d:w.x.y.z`, each octet a decimal number from 0 to 255 without a
 * leading zero, and the whole string must have that form.
 *
 * The recognizer follows the anchored pattern
 *   ^(?<address>IP):(?<subnet>IP)$   with   IP = (OCTET\.){3}OCTET
 *   OCTET = 25[0-5] | (2[0-4] | 1\d | [1-9] | )\d
 * alternative by alternative; `RouteGrammar` below proves it accepts exactly
 * the renderings of two addresses with octets up to 255.
 */
module IPv4Route {
  import opened Wrappers
  import opened Text

  datatype Route = Route(destinationAddress: string, subnetMask: string)

  /** One octet of the pattern, alternative by alternative. */
  predicate IsOctet(s: string) {
    || (|s| == 1 && IsDigit(s[0]))
    || (|s| == 2 && '1' <= s[0] <= '9' && IsDigit(s[1]))
    || (|s| == 3 && s[0] == '1' && IsDigit(s[1]) && IsDigit(s[2]))
    || (|s| == 3 && s[0] == '2' && '0' <= s[1] <= '4' && IsDigit(s[2]))
    || (|s| == 3 && s[0] == '2' && s[1] == '5' && '0' <= s[2] <= '5')
  }

  /** Four octets separated by dots. */
  predicate IsAddress(s: string) {
    var octets := Components(s, '.');
    |octets| == 4 && forall i :: 0 <= i < 4 ==> IsOctet(octets[i])
  }

  /** Two addresses separated by a colon, and nothing else. */
  predicate IsRoute(s: string) {
    var halves := Components(s, ':');
    |halves| == 2 && IsAddress(halves[0]) && IsAddress(halves[1])
  }

  /** The text matched by the `address` group: what comes before the colon. */
  function AddressGroup(s: string): string {
    Components(s, ':')[0]
  }

  /** The text matched by the `subnet` group: what comes after the colon. */
  function SubnetGroup(s: string): string
    requires IsRoute(s)
  {
    Components(s, ':')[1]
  }

  /**
   * `NEIPv4Route(from:)` as written: both the destination and the subnet
   * mask are read from the `address` group.
   */
  function ParseRouteAsWritten(s: string): (r: Option<Route>)
    ensures r.Some? <==> IsRoute(s)
    ensures r.Some? ==> r.value.destinationAddress == AddressGroup(s) && r.value.subnetMask == AddressGroup(s)
  {
    if IsRoute(s) then Some(Route(AddressGroup(s), AddressGroup(s))) else None
  }

  /**
   * The source's own test route "0.0.0.0:255.255.255.255" gets its
   * destination "0.0.0.0" as its mask.
   */
  lemma AsWrittenMaskIsDestination()
    ensures var zero, ones := Address(0, 0, 0, 0), Address(255, 255, 255, 255);
      && Render(zero) == "0.0.0.0" && Render(ones) == "255.255.255.255"
      && ParseRouteAsWritten(Join([Render(zero), Render(ones)], ':')) == Some(Route(Render(zero), Render(zero)))
      && Render(zero) != Render(ones)
  {
    RenderExamples();
    RouteOfRender(Address(0, 0, 0, 0), Address(255, 255, 255, 255));
  }

  lemma RenderExamples()
    ensures Render(Address(0, 0, 0, 0)) == "0.0.0.0"
    ensures Render(Address(255, 255, 255, 255)) == "255.255.255.255"
  {
    NumeralExamples();
    JoinFour("0", '.');
    JoinFour("255", '.');
  }

  lemma NumeralExamples()
    ensures DecimalString(0) == "0" && DecimalString(255) == "255"
  {
    assert DecimalString(2) == "2";
    assert DecimalString(25) == "25";
  }

  /** Four copies of `p` joined by `sep`. */
  lemma JoinFour(p: string, sep: char)
    ensures Join([p, p, p, p], sep) == p + [sep] + p + [sep] + p + [sep] + p
  {
    var parts := [p, p, p, p];
    assert parts[1..] == [p, p, p];
    assert parts[1..][1..] == [p, p];
    assert parts[1..][1..][1..] == [p];
    assert Join([p], sep) == p;
    assert Join([p, p], sep) == p + [sep] + p;
    assert Join([p, p, p], sep) == p + [sep] + (p + [sep] + p);
  }

  /** `NEIPv4Route(from:)` with the mask read from the `subnet` group. */
  function ParseRoute(s: string): (r: Option<Route>)
    ensures r.Some? <==> IsRoute(s)
    ensures r.Some? ==> r.value == Route(AddressGroup(s), SubnetGroup(s))
  {
    if IsRoute(s) then Some(Route(AddressGroup(s), SubnetGroup(s))) else None
  }

  /** With the mask read from its own group, the test route keeps "255.255.255.255" as its mask. */
  lemma CorrectedMaskIsSubnet()
    ensures var zero, ones := Address(0, 0, 0, 0), Address(255, 255, 255, 255);
      ParseRoute(Join([Render(zero), Render(ones)], ':')) == Some(Route(Render(zero), Render(ones)))
  {
    RouteOfRender(Address(0, 0, 0, 0), Address(255, 255, 255, 255));
  }

  /**
   * The initializer a caller parses routes with: `AsWritten` is the one the
   * source has, `Corrected` the one that reads the mask from its own group.
   */
  datatype RouteParser = AsWritten | Corrected

  function RouteOf(parser: RouteParser, s: string): (r: Option<Route>)
    ensures r.Some? <==> IsRoute(s)
    ensures r.Some? ==> r.value.destinationAddress == AddressGroup(s)
    ensures r.Some? && parser == AsWritten ==> r.value.subnetMask == AddressGroup(s)
    ensures r.Some? && parser == Corrected ==> r.value.subnetMask == SubnetGroup(s)
  {
    match parser
    case AsWritten => ParseRouteAsWritten(s)
    case Corrected => ParseRoute(s)
  }

  // ---------------------------------------------------------------------------
  // The language the pattern denotes

  datatype Address = Address(a: nat, b: nat, c: nat, d: nat)

  predicate ValidAddress(x: Address) {
    x.a <= 255 && x.b <= 255 && x.c <= 255 && x.d <= 255
  }

  /** Dotted-decimal rendering of an address. */
  function Render(x: Address): string {
    Join([DecimalString(x.a), DecimalString(x.b), DecimalString(x.c), DecimalString(x.d)], '.')
  }

  /** The number an octet spells. */
  function OctetValue(s: string): nat
    requires IsOctet(s)
  {
    DigitsValue(s)
  }

  /** Every number from 0 to 255, written out, is an octet. */
  lemma OctetOfDecimal(n: nat)
    requires n <= 255
    ensures IsOctet(DecimalString(n))
  {
    if n >= 10 {
      var high := n / 10;
      assert DecimalString(n) == DecimalString(high) + [DigitChar(n % 10)];
      if high >= 10 {
        assert DecimalString(high) == [DigitChar(high / 10)] + [DigitChar(high % 10)];
        assert high / 10 == 1 || high / 10 == 2;
        assert high / 10 == 2 ==> high % 10 <= 5;
        assert high == 25 ==> n % 10 <= 5;
      }
    }
  }

  /** An octet is the rendering of a number from 0 to 255. */
  lemma DecimalOfOctet(s: string)
    requires IsOctet(s)
    ensures OctetValue(s) <= 255 && DecimalString(OctetValue(s)) == s
  {
    if |s| == 1 {
      assert s[..0] == [];
      assert DecimalString(OctetValue(s)) == [DigitChar(DigitValue(s[0]))];
    } else if |s| == 2 {
      TwoDigits(s);
    } else if |s| == 3 {
      assert s[..2][..1] == s[..1];
      TwoDigits(s[..2]);
      var high, low := DigitsValue(s[..2]), DigitValue(s[2]);
      assert high <= 25 && (high == 25 ==> low <= 5);
      var n := OctetValue(s);
      assert n == high * 10 + low;
      assert n / 10 == high && n % 10 == low;
      assert DecimalString(n) == DecimalString(high) + [DigitChar(low)];
      assert s == s[..2] + [s[2]];
    }
  }

  /** Two digits, the first not zero, are the rendering of the number they spell. */
  lemma TwoDigits(s: string)
    requires |s| == 2 && '1' <= s[0] <= '9' && IsDigit(s[1])
    ensures DigitsValue(s) == DigitValue(s[0]) * 10 + DigitValue(s[1])
    ensures 10 <= DigitsValue(s) < 100 && DecimalString(DigitsValue(s)) == s
  {
    var d0, d1 := DigitValue(s[0]), DigitValue(s[1]);
    assert s[..1][..0] == [];
    assert DigitsValue(s[..1]) == d0;
    var n := DigitsValue(s);
    assert n == d0 * 10 + d1;
    assert n / 10 == d0 && n % 10 == d1;
    assert DecimalString(n) == [DigitChar(d0)] + [DigitChar(d1)];
  }

  lemma RenderHasNoColon(x: Address)
    ensures ':' !in Render(x)
  {
    var parts := [DecimalString(x.a), DecimalString(x.b), DecimalString(x.c), DecimalString(x.d)];
    forall i | 0 <= i < 4 ensures ':' !in parts[i] {
      assert AllDigits(parts[i]);
    }
    JoinAvoids(parts, '.', ':');
  }

  /** The address recognizer accepts exactly the renderings of addresses with octets up to 255. */
  lemma AddressGrammar(s: string)
    ensures IsAddress(s) <==> exists x :: ValidAddress(x) && Render(x) == s
  {
    if IsAddress(s) {
      var x := AddressOf(s);
    }
    if exists x :: ValidAddress(x) && Render(x) == s {
      var x :| ValidAddress(x) && Render(x) == s;
      AddressOfRender(x);
    }
  }

  /** The address an accepted string spells. */
  lemma AddressOf(s: string) returns (x: Address)
    requires IsAddress(s)
    ensures ValidAddress(x) && Render(x) == s
  {
    var octets := Components(s, '.');
    assert IsOctet(octets[0]) && IsOctet(octets[1]) && IsOctet(octets[2]) && IsOctet(octets[3]);
    DecimalOfOctet(octets[0]);
    DecimalOfOctet(octets[1]);
    DecimalOfOctet(octets[2]);
    DecimalOfOctet(octets[3]);
    x := Address(OctetValue(octets[0]), OctetValue(octets[1]), OctetValue(octets[2]), OctetValue(octets[3]));
    assert [DecimalString(x.a), DecimalString(x.b), DecimalString(x.c), DecimalString(x.d)] == octets;
    JoinComponents(s, '.');
  }

  lemma AddressOfRender(x: Address)
    requires ValidAddress(x)
    ensures IsAddress(Render(x))
    ensures Components(Render(x), '.') == [DecimalString(x.a), DecimalString(x.b), DecimalString(x.c), DecimalString(x.d)]
  {
    var parts := [DecimalString(x.a), DecimalString(x.b), DecimalString(x.c), DecimalString(x.d)];
    forall i | 0 <= i < 4 ensures '.' !in parts[i] {
      assert AllDigits(parts[i]);
    }
    ComponentsOfJoin(parts, '.');
    OctetOfDecimal(x.a);
    OctetOfDecimal(x.b);
    OctetOfDecimal(x.c);
    OctetOfDecimal(x.d);
  }

  /** A rendered pair of addresses is a route whose groups are the two renderings. */
  lemma RouteOfRender(x: Address, y: Address)
    requires ValidAddress(x) && ValidAddress(y)
    ensures var s := Join([Render(x), Render(y)], ':');
      IsRoute(s) && AddressGroup(s) == Render(x) && SubnetGroup(s) == Render(y)
  {
    RenderHasNoColon(x);
    RenderHasNoColon(y);
    ComponentsOfJoin([Render(x), Render(y)], ':');
    AddressOfRender(x);
    AddressOfRender(y);
  }

  /**
   * The route recognizer accepts exactly `A:S` for renderings A and S of
   * addresses with octets up to 255, and `ParseRoute` returns A and S.
   */
  lemma RouteGrammar(s: string)
    ensures IsRoute(s) <==> exists x, y :: ValidAddress(x) && ValidAddress(y) && Join([Render(x), Render(y)], ':') == s
    ensures forall x, y :: ValidAddress(x) && ValidAddress(y) && Join([Render(x), Render(y)], ':') == s ==>
      ParseRoute(s) == Some(Route(Render(x), Render(y)))
  {
    if IsRoute(s) {
      var halves := Components(s, ':');
      AddressGrammar(halves[0]);
      AddressGrammar(halves[1]);
      var x :| ValidAddress(x) && Render(x) == halves[0];
      var y :| ValidAddress(y) && Render(y) == halves[1];
      JoinComponents(s, ':');
      assert halves == [Render(x), Render(y)];
    }
    forall x, y | ValidAddress(x) && ValidAddress(y) && Join([Render(x), Render(y)], ':') == s
      ensures IsRoute(s) && ParseRoute(s) == Some(Route(Render(x), Render(y)))
    {
      RouteOfRender(x, y);
    }
  }

  /** An accepted route is made of digits, dots and one colon only. */
  lemma RouteChars(s: string, c: char)
    requires IsRoute(s) && c in s
    ensures IsDigit(c) || c == '.' || c == ':'
  {
    var halves := Components(s, ':');
    JoinComponents(s, ':');
    JoinChars(halves, ':', c);
    if c != ':' {
      var h :| 0 <= h < 2 && c in halves[h];
      AddressChars(halves[h], c);
    }
  }

  /** An accepted address is made of digits and dots only. */
  lemma AddressChars(s: string, c: char)
    requires IsAddress(s) && c in s
    ensures IsDigit(c) || c == '.'
  {
    var octets := Components(s, '.');
    JoinComponents(s, '.');
    JoinChars(octets, '.', c);
    if c != '.' {
      var i :| 0 <= i < 4 && c in octets[i];
      assert IsOctet(octets[i]);
    }
  }
}
