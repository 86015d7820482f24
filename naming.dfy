/** Channel naming of the Redis-backed buses: the prefix built from the
    configured name and database number, and channel = prefix + topic.
    Redis pub/sub does not separate databases, so the database number is
    part of every channel name. */
module Naming {
  import opened JsValues

  /** The part of the Redis client options the buses read. */
  datatype RedisOptions = RedisOptions(db: Option<nat>)

  /** Bus construction options. */
  datatype BusOptions = BusOptions(prefix: Option<string>, redis: Option<RedisOptions>)

  /** Reading a property of `undefined`. */
  datatype InitError = TypeError

  predicate IsDigit(c: char)
  {
    '0' <= c <= '9'
  }

  predicate AllDigits(s: string)
  {
    forall i :: 0 <= i < |s| ==> IsDigit(s[i])
  }

  function DigitChar(d: nat): (c: char)
    requires d < 10
    ensures IsDigit(c)
  {
    (48 + d) as char
  }

  function DigitValue(c: char): (d: nat)
    requires IsDigit(c)
    ensures d < 10 && DigitChar(d) == c
  {
    c as int - 48
  }

  /** A number as a template string renders it: decimal, no leading zeros. */
  function Digits(n: nat): (s: string)
    ensures |s| >= 1 && AllDigits(s)
    ensures ':' !in s
  {
    if n < 10 then [DigitChar(n)] else Digits(n / 10) + [DigitChar(n % 10)]
  }

  /** Reads a decimal numeral back. */
  function ParseDigits(s: string): nat
    requires AllDigits(s)
  {
    if s == [] then 0 else ParseDigits(s[..|s| - 1]) * 10 + DigitValue(s[|s| - 1])
  }

  /** Parsing inverts rendering. */
  lemma {:induction false} ParseDigitsInverts(n: nat)
    ensures ParseDigits(Digits(n)) == n
  {
    if n >= 10 {
      var s := Digits(n);
      assert s[..|s| - 1] == Digits(n / 10);
      ParseDigitsInverts(n / 10);
    }
  }

  /** Distinct numbers render differently. */
  lemma DigitsInjective(a: nat, b: nat)
    requires Digits(a) == Digits(b)
    ensures a == b
  {
    ParseDigitsInverts(a);
    ParseDigitsInverts(b);
  }

  /** `<name>:<db>:` */
  function NamespacePrefix(name: string, db: string): string
  {
    name + ":" + db + ":"
  }

  /** `prefix + topic`. */
  function ChannelName(prefix: string, topic: string): (c: string)
    ensures |c| == |prefix| + |topic|
    ensures StartsWith(c, prefix) && c[|prefix|..] == topic
  {
    prefix + topic
  }

  predicate StartsWith(s: string, p: string)
  {
    |p| <= |s| && s[..|p|] == p
  }

  /** The database number a TypeScript bus uses; absent means 0. */
  function DbOf(opts: Option<BusOptions>): nat
  {
    if opts.Some? && opts.value.redis.Some? then Coalesce(opts.value.redis.value.db, 0) else 0
  }

  /** `${opts?.prefix ?? 'bus'}:${opts?.redis?.db ?? '0'}:` */
  function PrefixOf(opts: Option<BusOptions>): (p: string)
    ensures p == NamespacePrefix(if opts.Some? then Coalesce(opts.value.prefix, "bus") else "bus", Digits(DbOf(opts)))
    ensures opts.None? ==> p == "bus:0:"
  {
    var name := if opts.Some? then Coalesce(opts.value.prefix, "bus") else "bus";
    var db := if opts.Some? && opts.value.redis.Some? && opts.value.redis.value.db.Some?
              then Digits(opts.value.redis.value.db.value) else "0";
    NamespacePrefix(name, db)
  }

  /** `${opts.prefix || 'bus'}:${opts.redis.db || '0'}:` with `opts` and
      `opts.redis` dereferenced unguarded. */
  function LegacyPrefixOf(opts: Option<BusOptions>): (r: Result<string, InitError>)
    ensures r.Failure? <==> opts.None? || opts.value.redis.None?
    ensures r.Success? ==> r.value == NamespacePrefix(OrElse(opts.value.prefix, "bus"), Digits(DbOf(opts)))
  {
    if opts.None? || opts.value.redis.None? then Failure(TypeError)
    else
      var db := opts.value.redis.value.db;
      var dbText := if db.Some? && db.value != 0 then Digits(db.value) else "0";
      Success(NamespacePrefix(OrElse(opts.value.prefix, "bus"), dbText))
  }

  /** When construction succeeds, the legacy prefix equals the TypeScript
      one exactly when the configured prefix is not the empty string
      (`||` replaces it by 'bus', `??` keeps it). */
  lemma LegacyPrefixAgrees(opts: Option<BusOptions>)
    requires opts.Some? && opts.value.redis.Some?
    ensures LegacyPrefixOf(opts) == Success(PrefixOf(opts)) <==> opts.value.prefix != Some("")
  {
    if opts.value.prefix == Some("") {
      var p := PrefixOf(opts);
      assert p[0] == ':';
      assert LegacyPrefixOf(opts).value[0] == 'b';
    }
  }

  /** When `b:` starts `a:x` and neither `a` nor `b` holds a colon, the
      two fields are equal. */
  lemma FieldsAlign(a: string, b: string, x: string)
    requires ':' !in a && ':' !in b
    requires StartsWith(a + ":" + x, b + ":")
    ensures a == b
  {
    var s := a + ":" + x;
    assert s[|a|] == ':';
    assert s[|b|] == ':';
    assert a == s[..|a|] == b;
  }

  /** Splitting at the first colon: when `b:y` starts `a:x` and neither
      `a` nor `b` holds a colon, `a == b` and `y` starts `x`. */
  lemma SplitAtColon(a: string, b: string, x: string, y: string)
    requires ':' !in a && ':' !in b
    requires StartsWith(a + ":" + x, b + ":" + y)
    ensures a == b && StartsWith(x, y)
  {
    var s := a + ":" + x;
    assert (b + ":" + y)[..|b| + 1] == b + ":";
    FieldsAlign(a, b, x);
    assert s[|a| + 1..] == x;
    assert (b + ":" + y)[|b| + 1..] == y;
  }

  /** Namespace isolation: for names without a colon, a bus configured
      with another name or another database never matches (`prefix*`)
      a channel of this one. */
  lemma NamespaceIsolation(name1: string, db1: nat, name2: string, db2: nat, topic: string)
    requires ':' !in name1 && ':' !in name2
    requires name1 != name2 || db1 != db2
    ensures !StartsWith(ChannelName(NamespacePrefix(name1, Digits(db1)), topic), NamespacePrefix(name2, Digits(db2)))
  {
    var d1, d2 := Digits(db1), Digits(db2);
    var c := ChannelName(NamespacePrefix(name1, d1), topic);
    var p2 := NamespacePrefix(name2, d2);
    if StartsWith(c, p2) {
      assert c == name1 + ":" + (d1 + ":" + topic);
      assert p2 == name2 + ":" + (d2 + ":");
      SplitAtColon(name1, name2, d1 + ":" + topic, d2 + ":");
      FieldsAlign(d1, d2, topic);
      DigitsInjective(db1, db2);
    }
  }

  /** Without the colon-free condition the prefix is ambiguous: a bus named
      `a:1` on database 0 and a bus named `a` on database 1 give the topics
      `t` and `0:t` the same channel, and pub/sub does not separate the
      databases, so each bus hears the other's notifications. */
  lemma NamespaceCollision()
    ensures var bus1 := Some(BusOptions(Some("a:1"), Some(RedisOptions(Some(0)))));
            var bus2 := Some(BusOptions(Some("a"), Some(RedisOptions(Some(1)))));
            PrefixOf(bus1) != PrefixOf(bus2)
            && ChannelName(PrefixOf(bus1), "t") == ChannelName(PrefixOf(bus2), "0:t") == "a:1:0:t"
            && StartsWith(ChannelName(PrefixOf(bus1), "t"), PrefixOf(bus2))
  {
    assert Digits(0) == "0" && Digits(1) == "1";
  }
}
