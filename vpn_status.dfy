/**
 * The six-state connectivity status of a tunnel session (NetworkExtension's
 * `NEVPNStatus`), its textual description and its fixed list of cases
 * (Util/NEVPNStatus+Util.swift).
 */
module VpnStatus {
  import opened Wrappers

  datatype Status = Invalid | Disconnected | Connecting | Connected | Reasserting | Disconnecting

  /** The platform's raw values of the six cases. */
  function RawValue(s: Status): int {
    match s
    case Invalid => 0
    case Disconnected => 1
    case Connecting => 2
    case Connected => 3
    case Reasserting => 4
    case Disconnecting => 5
  }

  /** The case a raw value stands for, if any. */
  function FromRaw(raw: int): (s: Option<Status>)
    ensures s.Some? <==> 0 <= raw <= 5
    ensures s.Some? ==> RawValue(s.value) == raw
  {
    if raw == 0 then Some(Invalid)
    else if raw == 1 then Some(Disconnected)
    else if raw == 2 then Some(Connecting)
    else if raw == 3 then Some(Connected)
    else if raw == 4 then Some(Reasserting)
    else if raw == 5 then Some(Disconnecting)
    else None
  }

  lemma FromRawOfRawValue(s: Status)
    ensures FromRaw(RawValue(s)) == Some(s)
  {
  }

  /** The lower-case name of a status. */
  function Description(s: Status): string {
    match s
    case Invalid => "invalid"
    case Disconnected => "disconnected"
    case Connecting => "connecting"
    case Connected => "connected"
    case Reasserting => "reasserting"
    case Disconnecting => "disconnecting"
  }

  /**
   * The description of any raw status value: the name of its case, or
   * "unknown" for a value outside the six cases (the switch's default branch).
   */
  function DescribeRaw(raw: int): (d: string)
    ensures d == "unknown" <==> !(0 <= raw <= 5)
    ensures 0 <= raw <= 5 ==> d == Description(FromRaw(raw).value)
  {
    match FromRaw(raw)
    case Some(s) => Description(s)
    case None => "unknown"
  }

  /** No two statuses share a description, and none is described as "unknown". */
  lemma DescriptionInjective(s: Status, t: Status)
    ensures Description(s) == Description(t) <==> s == t
    ensures Description(s) != "unknown"
  {
  }

  /** `allCases`, in the order the source lists them. */
  const AllCases: seq<Status> := [Invalid, Disconnected, Disconnecting, Connecting, Connected, Reasserting]

  function Count(xs: seq<Status>, s: Status): (n: nat)
    ensures n <= |xs|
    ensures n == 0 <==> s !in xs
  {
    if xs == [] then 0 else (if xs[0] == s then 1 else 0) + Count(xs[1..], s)
  }

  /** The statuses of `xs` other than `s`, in order (Swift's `filter { $0 != s }`). */
  function Without(xs: seq<Status>, s: Status): (r: seq<Status>)
    ensures |r| == |xs| - Count(xs, s)
    ensures forall i :: 0 <= i < |r| ==> r[i] != s && r[i] in xs
    ensures s !in xs ==> r == xs
  {
    if xs == [] then []
    else (if xs[0] == s then [] else [xs[0]]) + Without(xs[1..], s)
  }

  /** Filtering keeps order: the filtered concatenation is the concatenation of the filtered parts. */
  lemma {:induction false} WithoutAppend(a: seq<Status>, b: seq<Status>, s: Status)
    ensures Without(a + b, s) == Without(a, s) + Without(b, s)
  {
    if a != [] {
      assert (a + b)[1..] == a[1..] + b;
      WithoutAppend(a[1..], b, s);
      ConcatAssociative(if a[0] == s then [] else [a[0]], Without(a[1..], s), Without(b, s));
    } else {
      assert a + b == b;
    }
  }

  lemma ConcatAssociative(x: seq<Status>, y: seq<Status>, z: seq<Status>)
    ensures x + (y + z) == (x + y) + z
  {
  }

  /** Filtering keeps exactly the entries other than `s`. */
  lemma {:induction false} WithoutMembers(xs: seq<Status>, s: Status, t: Status)
    ensures t in Without(xs, s) <==> t in xs && t != s
  {
    if xs != [] {
      WithoutMembers(xs[1..], s, t);
      assert xs == [xs[0]] + xs[1..];
    }
  }

  /** No status is listed twice in `allCases`. */
  lemma AllCasesDistinct()
    ensures |AllCases| == 6
    ensures forall i, j :: 0 <= i < j < |AllCases| ==> AllCases[i] != AllCases[j]
  {
  }

  /** `allCases` lists every status exactly once. */
  lemma {:induction false} AllCasesComplete(s: Status)
    ensures s in AllCases && Count(AllCases, s) == 1
  {
    AllCasesDistinct();
    var k := match s
      case Invalid => 0
      case Disconnected => 1
      case Disconnecting => 2
      case Connecting => 3
      case Connected => 4
      case Reasserting => 5;
    assert AllCases[k] == s;
    CountSingle(AllCases, k);
  }

  /** An element that occurs only at index `k` is counted once. */
  lemma {:induction false} CountSingle(xs: seq<Status>, k: nat)
    requires k < |xs|
    requires forall i :: 0 <= i < |xs| && i != k ==> xs[i] != xs[k]
    ensures Count(xs, xs[k]) == 1
  {
    if k == 0 {
      assert xs[k] !in xs[1..];
    } else {
      CountSingle(xs[1..], k - 1);
    }
  }

  /**
   * Leaving `connected` out of `allCases` leaves the five statuses in which a
   * session refuses to send.
   */
  lemma NonSendableCases(s: Status)
    ensures |Without(AllCases, Connected)| == 5
    ensures s in Without(AllCases, Connected) <==> s != Connected
  {
    AllCasesDistinct();
    AllCasesComplete(Connected);
    AllCasesComplete(s);
    WithoutMembers(AllCases, Connected, s);
  }
}
