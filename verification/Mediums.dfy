/** Radio mediums: selecting them, and preferring one to another. */
module Mediums {
  datatype Medium = UNKNOWN_MEDIUM | BLUETOOTH | BLE | WEB_RTC | WIFI_LAN | WIFI_HOTSPOT | WIFI_DIRECT

  datatype Selector = Selector(bluetooth: bool, ble: bool, webRtc: bool, wifiLan: bool, wifiHotspot: bool, wifiDirect: bool)

  /** The flag a selector has for a medium; there is none for the unknown medium. */
  predicate Flag(s: Selector, medium: Medium, value: bool) {
    match medium
    case UNKNOWN_MEDIUM => false
    case BLUETOOTH => s.bluetooth == value
    case BLE => s.ble == value
    case WEB_RTC => s.webRtc == value
    case WIFI_LAN => s.wifiLan == value
    case WIFI_HOTSPOT => s.wifiHotspot == value
    case WIFI_DIRECT => s.wifiDirect == value
  }

  /** The order of decreasing preference. */
  function Place(medium: Medium): nat {
    match medium
    case WIFI_LAN => 0
    case WIFI_DIRECT => 1
    case WIFI_HOTSPOT => 2
    case WEB_RTC => 3
    case BLUETOOTH => 4
    case BLE => 5
    case UNKNOWN_MEDIUM => 6
  }

  lemma PreferenceOrder()
    ensures Place(WIFI_LAN) < Place(WIFI_DIRECT) < Place(WIFI_HOTSPOT) < Place(WEB_RTC) < Place(BLUETOOTH) < Place(BLE)
  {
  }

  /** Exactly the selected ones among the `k` most preferred mediums, each once and most
      preferred first. */
  ghost predicate Selected(mediums: seq<Medium>, s: Selector, value: bool, k: nat) {
    && (forall m :: m in mediums <==> Among(s, m, value, k))
    && (forall i, j :: 0 <= i < j < |mediums| ==> Place(mediums[i]) < Place(mediums[j]))
  }

  predicate Among(s: Selector, medium: Medium, value: bool, k: nat) {
    Flag(s, medium, value) && Place(medium) < k
  }

  method Push(mediums: seq<Medium>, medium: Medium, on: bool, ghost s: Selector, ghost value: bool) returns (more: seq<Medium>)
    requires Selected(mediums, s, value, Place(medium)) && on == Flag(s, medium, value)
    ensures Selected(more, s, value, Place(medium) + 1)
  {
    more := if on then mediums + [medium] else mediums;
    assert forall i :: 0 <= i < |mediums| ==> mediums[i] in mediums;
    assert forall m :: Place(m) == Place(medium) ==> m == medium;
    assert forall m :: m in more <==> m in mediums || (on && m == medium);
  }

  method GetMediums(s: Selector, value: bool) returns (mediums: seq<Medium>)
    ensures forall m :: m in mediums <==> Flag(s, m, value)
    ensures forall i, j :: 0 <= i < j < |mediums| ==> Place(mediums[i]) < Place(mediums[j])
  {
    mediums := Push([], WIFI_LAN, s.wifiLan == value, s, value);
    mediums := Push(mediums, WIFI_DIRECT, s.wifiDirect == value, s, value);
    mediums := Push(mediums, WIFI_HOTSPOT, s.wifiHotspot == value, s, value);
    mediums := Push(mediums, WEB_RTC, s.webRtc == value, s, value);
    mediums := Push(mediums, BLUETOOTH, s.bluetooth == value, s, value);
    mediums := Push(mediums, BLE, s.ble == value, s, value);
    assert forall m :: Among(s, m, value, 6) <==> Flag(s, m, value);
  }

  /** Where a medium first comes in a list of priorities; last if it does not. */
  function Rank(mediums: seq<Medium>, medium: Medium): (r: nat)
    ensures r <= |mediums|
    ensures r < |mediums| ==> mediums[r] == medium
    ensures medium !in mediums[..r]
  {
    if mediums == [] || mediums[0] == medium then 0
    else
      var r := 1 + Rank(mediums[1..], medium);
      assert mediums[..r] == [mediums[0]] + mediums[1..][..r - 1];
      r
  }

  lemma RankIs(mediums: seq<Medium>, i: nat)
    requires i < |mediums| && mediums[i] !in mediums[..i]
    ensures Rank(mediums, mediums[i]) == i
  {
  }

  lemma NotBefore(mediums: seq<Medium>, medium: Medium, i: nat)
    requires i <= |mediums| && medium !in mediums[..i]
    ensures Rank(mediums, medium) >= i
  {
  }

  /** The comparator: for every list of priorities, repeated or missing mediums
      included, it prefers the medium that comes first. */
  method IsPreferred(mediums: seq<Medium>, newer: Medium, older: Medium) returns (r: bool)
    ensures r <==> Rank(mediums, newer) < Rank(mediums, older)
  {
    if newer != older {
      for i := 0 to |mediums|
        invariant newer !in mediums[..i] && older !in mediums[..i]
      {
        if mediums[i] == newer {
          RankIs(mediums, i);
          assert Rank(mediums, older) > i by { NotBefore(mediums, older, i + 1); }
          return true;
        }
        if mediums[i] == older {
          RankIs(mediums, i);
          assert Rank(mediums, newer) > i by { NotBefore(mediums, newer, i + 1); }
          return false;
        }
      }
      NotBefore(mediums, newer, |mediums|);
      NotBefore(mediums, older, |mediums|);
    }
    return false;
  }

  /** What the other side listed, or the default if it listed nothing. */
  function Theirs(theirs: seq<Medium>, default: Medium): seq<Medium> {
    if theirs == [] then [default] else theirs
  }

  /** The mediums both sides support; WEB_RTC also needs the client's consent. */
  method ComputeIntersectionOfSupportedMediums(
    mine: seq<Medium>, theirs: seq<Medium>, default: Medium, webRtcListening: bool, webRtcAllowed: bool)
    returns (r: Selector)
    ensures forall m :: Flag(r, m, true) <==>
                          && m != UNKNOWN_MEDIUM && m in mine && m in Theirs(theirs, default)
                          && (m == WEB_RTC ==> webRtcListening || webRtcAllowed)
  {
    var intersection: set<Medium> := {};
    var supported := theirs;
    if supported == [] {
      supported := supported + [default];
    }
    for i := 0 to |mine|
      invariant forall m :: m in intersection <==>
                              m in mine[..i] && m in supported && (m == WEB_RTC ==> webRtcListening || webRtcAllowed)
    {
      if mine[i] in supported && (mine[i] == WEB_RTC ==> webRtcListening || webRtcAllowed) {
        intersection := intersection + {mine[i]};
      }
    }
    r := Selector(BLUETOOTH in intersection, BLE in intersection, WEB_RTC in intersection,
                  WIFI_LAN in intersection, WIFI_HOTSPOT in intersection, WIFI_DIRECT in intersection);
    assert mine[..|mine|] == mine;
  }
}
