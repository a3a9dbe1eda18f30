/**
  The values the operator writes into node annotations: the ownership stamp
  "<namespace>/<name>/<uid>" and the heat declaration, which is the stamp plus an
  expiry in the UTC form of section 5.6 of RFC 3339.

  The reaper removes a stamp only when the run it names is provably gone, so the
  parsers have to name runs exactly: each accepts precisely the printed values.
*/
module Stamps {
  import opened Base

  // ---------------------------------------------------------------- splitting

  /** strings.Split on one separator. */
  function Split(s: string, sep: char): (parts: seq<string>)
    ensures |parts| >= 1
  {
    if s == [] then [[]]
    else
      var rest := Split(s[1..], sep);
      if s[0] == sep then [[]] + rest else [[s[0]] + rest[0]] + rest[1..]
  }

  /** strings.Join with one separator. */
  function Join(parts: seq<string>, sep: char): (s: string)
  {
    if |parts| == 0 then []
    else if |parts| == 1 then parts[0]
    else parts[0] + [sep] + Join(parts[1..], sep)
  }

  lemma {:induction false} JoinSplit(s: string, sep: char)
    ensures Join(Split(s, sep), sep) == s
  {
    if s == [] {
    } else {
      var rest := Split(s[1..], sep);
      JoinSplit(s[1..], sep);
      if s[0] == sep {
        assert ([[]] + rest)[1..] == rest;
      } else {
        assert ([[s[0]] + rest[0]] + rest[1..])[1..] == rest[1..];
      }
    }
  }

  lemma {:induction false} SplitHasNoSeparator(s: string, sep: char)
    ensures forall i :: 0 <= i < |Split(s, sep)| ==> sep !in Split(s, sep)[i]
  {
    if s != [] {
      SplitHasNoSeparator(s[1..], sep);
    }
  }

  /** A separator-free piece in front of a separator is the first part. */
  lemma {:induction false} SplitPiece(p: string, rest: string, sep: char)
    requires sep !in p
    ensures Split(p + [sep] + rest, sep) == [p] + Split(rest, sep)
  {
    var s := p + [sep] + rest;
    if p == [] {
      assert s[1..] == rest;
    } else {
      assert s[1..] == p[1..] + [sep] + rest;
      SplitPiece(p[1..], rest, sep);
      assert [p[0]] + p[1..] == p;
    }
  }

  lemma {:induction false} SplitSingle(p: string, sep: char)
    requires sep !in p
    ensures Split(p, sep) == [p]
  {
    if p != [] {
      SplitSingle(p[1..], sep);
      assert [p[0]] + p[1..] == p;
    }
  }

  lemma {:induction false} SplitJoin(parts: seq<string>, sep: char)
    requires |parts| >= 1 && forall i :: 0 <= i < |parts| ==> sep !in parts[i]
    ensures Split(Join(parts, sep), sep) == parts
  {
    if |parts| == 1 {
      SplitSingle(parts[0], sep);
    } else {
      SplitJoin(parts[1..], sep);
      SplitPiece(parts[0], Join(parts[1..], sep), sep);
      assert [parts[0]] + parts[1..] == parts;
    }
  }

  // ------------------------------------------------------------ the ownership stamp

  /** Who a stamp names. UIDs are never reused, names are. */
  datatype Owner = Owner(namespace: string, name: string, uid: string)

  /** The names Kubernetes can hand out: non-empty and free of '/'. */
  predicate Nameable(o: Owner) {
    && o.namespace != "" && '/' !in o.namespace
    && o.name != "" && '/' !in o.name
    && o.uid != "" && '/' !in o.uid
  }

  function OwnerId(o: Owner): (s: string)
    ensures s != ""
  {
    o.namespace + "/" + o.name + "/" + o.uid
  }

  function ParseOwner(value: string): (r: Option<Owner>)
  {
    var parts := Split(value, '/');
    if |parts| != 3 || parts[0] == "" || parts[1] == "" || parts[2] == "" then None
    else Some(Owner(parts[0], parts[1], parts[2]))
  }

  lemma OwnerIdIsJoin(o: Owner)
    ensures OwnerId(o) == Join([o.namespace, o.name, o.uid], '/')
  {
    var all := [o.namespace, o.name, o.uid];
    assert all[1..] == [o.name, o.uid] && all[1..][1..] == [o.uid];
    assert Join(all[1..], '/') == o.name + "/" + o.uid;
  }

  /**
    The strict parser accepts a value exactly when it is the stamp of a nameable
    owner, and reads back exactly that owner.
  */
  lemma ParseOwnerExact(value: string, o: Owner)
    ensures ParseOwner(value) == Some(o) <==> Nameable(o) && value == OwnerId(o)
  {
    OwnerIdIsJoin(o);
    var parts := Split(value, '/');
    if ParseOwner(value) == Some(o) {
      JoinSplit(value, '/');
      SplitHasNoSeparator(value, '/');
      assert parts == [o.namespace, o.name, o.uid];
    }
    if Nameable(o) && value == OwnerId(o) {
      SplitJoin([o.namespace, o.name, o.uid], '/');
    }
  }

  /** Two nameable owners never share a stamp. */
  lemma OwnerIdInjective(a: Owner, b: Owner)
    requires Nameable(a) && Nameable(b) && OwnerId(a) == OwnerId(b)
    ensures a == b
  {
    ParseOwnerExact(OwnerId(a), a);
    ParseOwnerExact(OwnerId(b), b);
  }

  // --------------------------------------------------------------- the expiry

  /** An instant as its UTC calendar fields. */
  datatype Instant = Instant(year: nat, month: nat, day: nat, hour: nat, minute: nat, second: nat)

  predicate Leap(y: nat) {
    y % 4 == 0 && (y % 100 != 0 || y % 400 == 0)
  }

  function DaysIn(y: nat, m: nat): nat {
    if m == 2 then (if Leap(y) then 29 else 28)
    else if m == 4 || m == 6 || m == 9 || m == 11 then 30
    else 31
  }

  /** The instants RFC 3339 can write: a four-digit year and a real calendar day. */
  predicate Writable(t: Instant) {
    && t.year < 10000 && 1 <= t.month <= 12 && 1 <= t.day <= DaysIn(t.year, t.month)
    && t.hour < 24 && t.minute < 60 && t.second < 60
  }

  predicate Before(a: Instant, b: Instant) {
    if a.year != b.year then a.year < b.year
    else if a.month != b.month then a.month < b.month
    else if a.day != b.day then a.day < b.day
    else if a.hour != b.hour then a.hour < b.hour
    else if a.minute != b.minute then a.minute < b.minute
    else a.second < b.second
  }

  /** An instant's fields as one number, most significant first. */
  function Clock(t: Instant): nat {
    ((((t.year * 100 + t.month) * 100 + t.day) * 100 + t.hour) * 100 + t.minute) * 100 + t.second
  }

  lemma BeforeIsClockOrder(a: Instant, b: Instant)
    requires Writable(a) && Writable(b)
    ensures Before(a, b) <==> Clock(a) < Clock(b)
  {
  }

  function Pow10(w: nat): nat {
    if w == 0 then 1 else 10 * Pow10(w - 1)
  }

  function Digit(d: nat): char
    requires d < 10
  {
    '0' + (d as char)
  }

  /** The decimal digits of n, zero-padded to w places. */
  function Pad(n: nat, w: nat): (s: string)
    ensures |s| == w
  {
    if w == 0 then [] else Pad(n / 10, w - 1) + [Digit(n % 10)]
  }

  function Number(s: string): (r: Option<nat>)
  {
    if s == [] then Some(0)
    else
      var last := s[|s| - 1];
      var front := Number(s[..|s| - 1]);
      if front.None? || !('0' <= last <= '9') then None
      else Some(10 * front.value + (last as int - '0' as int))
  }

  /** Reading digits inverts padding, both ways. */
  lemma {:induction false} NumberExact(s: string, n: nat)
    ensures Number(s) == Some(n) <==> n < Pow10(|s|) && s == Pad(n, |s|)
  {
    if s != [] {
      var front := s[..|s| - 1];
      var last := s[|s| - 1];
      NumberExact(front, n / 10);
      assert s == front + [last];
      if Number(s) == Some(n) {
        var f := Number(front).value;
        assert n == 10 * f + (last as int - '0' as int);
        assert f == n / 10;
        assert last == Digit(n % 10);
      }
      if n < Pow10(|s|) && s == Pad(n, |s|) {
        var p := Pad(n / 10, |s| - 1);
        assert s == p + [Digit(n % 10)];
        assert front == p && last == Digit(n % 10);
        assert n / 10 < Pow10(|s| - 1);
      }
    }
  }

  function FormatInstant(t: Instant): (s: string)
    ensures |s| == 20
  {
    Pad(t.year, 4) + "-" + Pad(t.month, 2) + "-" + Pad(t.day, 2) + "T" +
    Pad(t.hour, 2) + ":" + Pad(t.minute, 2) + ":" + Pad(t.second, 2) + "Z"
  }

  predicate Punctuated(s: string) {
    |s| == 20 && s[4] == '-' && s[7] == '-' && s[10] == 'T' && s[13] == ':' && s[16] == ':' && s[19] == 'Z'
  }

  function ParseInstant(s: string): (r: Option<Instant>)
  {
    if !Punctuated(s) then None
    else
      var y, mo, d := Number(s[0..4]), Number(s[5..7]), Number(s[8..10]);
      var h, mi, se := Number(s[11..13]), Number(s[14..16]), Number(s[17..19]);
      if y.None? || mo.None? || d.None? || h.None? || mi.None? || se.None? then None
      else
        var t := Instant(y.value, mo.value, d.value, h.value, mi.value, se.value);
        if Writable(t) then Some(t) else None
  }

  lemma FormatFields(s: string, t: Instant)
    requires |s| == 20
    ensures s == FormatInstant(t) <==>
            && Punctuated(s)
            && s[0..4] == Pad(t.year, 4) && s[5..7] == Pad(t.month, 2) && s[8..10] == Pad(t.day, 2)
            && s[11..13] == Pad(t.hour, 2) && s[14..16] == Pad(t.minute, 2) && s[17..19] == Pad(t.second, 2)
  {
    if Punctuated(s) {
      assert s == s[0..4] + "-" + s[5..7] + "-" + s[8..10] + "T" + s[11..13] + ":" + s[14..16] + ":" + s[17..19] + "Z";
    }
  }

  lemma ParseInstantExact(s: string, t: Instant)
    ensures ParseInstant(s) == Some(t) <==> Writable(t) && s == FormatInstant(t)
  {
    assert Pow10(2) == 100 && Pow10(4) == 10000 by {
      assert Pow10(1) == 10 && Pow10(3) == 1000;
    }
    if |s| == 20 {
      FormatFields(s, t);
      NumberExact(s[0..4], t.year);
      NumberExact(s[5..7], t.month);
      NumberExact(s[8..10], t.day);
      NumberExact(s[11..13], t.hour);
      NumberExact(s[14..16], t.minute);
      NumberExact(s[17..19], t.second);
    }
  }

  /** The printed form, field by field: twenty characters, most significant first, each field in decimal. */
  lemma InstantLayout(t: Instant)
    requires Writable(t)
    ensures var s := FormatInstant(t);
            && s[4] == '-' && s[7] == '-' && s[10] == 'T' && s[13] == ':' && s[16] == ':' && s[19] == 'Z'
            && Number(s[0..4]) == Some(t.year) && Number(s[5..7]) == Some(t.month) && Number(s[8..10]) == Some(t.day)
            && Number(s[11..13]) == Some(t.hour) && Number(s[14..16]) == Some(t.minute) && Number(s[17..19]) == Some(t.second)
  {
    var s := FormatInstant(t);
    hide FormatInstant;
    FormatFields(s, t);
    assert Pow10(2) == 100 && Pow10(4) == 10000 by {
      assert Pow10(1) == 10 && Pow10(3) == 1000;
    }
    NumberExact(s[0..4], t.year);
    NumberExact(s[5..7], t.month);
    NumberExact(s[8..10], t.day);
    NumberExact(s[11..13], t.hour);
    NumberExact(s[14..16], t.minute);
    NumberExact(s[17..19], t.second);
  }

  // ----------------------------------------------------------- the heat declaration

  datatype Marker = Marker(owner: Owner, expiry: Instant)

  function HeatId(m: Marker): (s: string) {
    OwnerId(m.owner) + "/" + FormatInstant(m.expiry)
  }

  function ParseHeat(value: string): (r: Option<Marker>)
  {
    var parts := Split(value, '/');
    if |parts| != 4 then None
    else
      var owner, expiry := ParseOwner(Join(parts[..3], '/')), ParseInstant(parts[3]);
      if owner.None? || expiry.None? then None else Some(Marker(owner.value, expiry.value))
  }

  lemma {:induction false} PadHasNoSlash(n: nat, w: nat)
    ensures '/' !in Pad(n, w)
  {
    if w > 0 {
      PadHasNoSlash(n / 10, w - 1);
    }
  }

  lemma FormatHasNoSlash(t: Instant)
    ensures '/' !in FormatInstant(t)
  {
    PadHasNoSlash(t.year, 4);
    PadHasNoSlash(t.month, 2);
    PadHasNoSlash(t.day, 2);
    PadHasNoSlash(t.hour, 2);
    PadHasNoSlash(t.minute, 2);
    PadHasNoSlash(t.second, 2);
  }

  lemma HeatIdIsJoin(m: Marker)
    ensures HeatId(m) == Join([m.owner.namespace, m.owner.name, m.owner.uid, FormatInstant(m.expiry)], '/')
  {
    var e := FormatInstant(m.expiry);
    var all := [m.owner.namespace, m.owner.name, m.owner.uid, e];
    assert all[1..] == [m.owner.name, m.owner.uid, e];
    assert all[1..][1..] == [m.owner.uid, e] && all[1..][1..][1..] == [e];
    assert Join(all[1..][1..], '/') == m.owner.uid + "/" + e;
    assert Join(all[1..], '/') == m.owner.name + "/" + (m.owner.uid + "/" + e);
  }

  /** A heat declaration parses exactly when it was printed for a nameable owner and a writable expiry. */
  lemma ParseHeatExact(value: string, m: Marker)
    ensures ParseHeat(value) == Some(m) <==>
            Nameable(m.owner) && Writable(m.expiry) && value == HeatId(m)
  {
    HeatIdIsJoin(m);
    var o, e := m.owner, FormatInstant(m.expiry);
    var parts := Split(value, '/');
    if ParseHeat(value) == Some(m) {
      JoinSplit(value, '/');
      SplitHasNoSeparator(value, '/');
      ParseOwnerExact(Join(parts[..3], '/'), o);
      SplitJoin(parts[..3], '/');
      ParseInstantExact(parts[3], m.expiry);
      assert parts == parts[..3] + [parts[3]];
      assert parts == [o.namespace, o.name, o.uid, e];
    }
    if Nameable(o) && Writable(m.expiry) && value == HeatId(m) {
      FormatHasNoSlash(m.expiry);
      SplitJoin([o.namespace, o.name, o.uid, e], '/');
      assert parts[..3] == [o.namespace, o.name, o.uid];
      OwnerIdIsJoin(o);
      ParseOwnerExact(OwnerId(o), o);
      ParseInstantExact(e, m.expiry);
    }
  }
}
