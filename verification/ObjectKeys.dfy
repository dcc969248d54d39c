/**
 Object keys and the stores that hold them (server/pipeline/sentinel_pipeline/blobstore.py,
 server/gateway/internal/blob/blob.go).
 */
module ObjectKeys {
  import opened Prelude

  // ------------------------------------------------------------ decimal text

  function DigitChar(d: nat): char
    requires d < 10
  {
    "0123456789"[d]
  }

  function Dec(n: nat): (s: string)
    ensures s != []
  {
    if n < 10 then [DigitChar(n)] else Dec(n / 10) + [DigitChar(n % 10)]
  }

  /** At least eight digits, zeros in front. */
  function Dec8(n: nat): string
  {
    var s := Dec(n);
    if |s| < 8 then seq(8 - |s|, _ => '0') + s else s
  }

  function DigitOf(c: char): nat { if '0' <= c <= '9' then c as int - '0' as int else 0 }

  function Value(s: string): nat { if s == [] then 0 else 10 * Value(s[..|s| - 1]) + DigitOf(s[|s| - 1]) }

  predicate IsDecimal(s: string) { forall i :: 0 <= i < |s| ==> '0' <= s[i] <= '9' }

  lemma DigitReads(d: nat)
    requires d < 10
    ensures DigitOf(DigitChar(d)) == d && '0' <= DigitChar(d) <= '9'
  {
  }

  lemma {:induction false} DecReads(n: nat)
    ensures Value(Dec(n)) == n && IsDecimal(Dec(n))
  {
    if n < 10 {
      DigitReads(n);
    } else {
      DecReads(n / 10);
      DigitReads(n % 10);
      assert Dec(n)[..|Dec(n)| - 1] == Dec(n / 10);
    }
  }

  lemma {:induction false} ZerosAddNothing(k: nat, s: string)
    ensures Value(seq(k, _ => '0') + s) == Value(s)
    decreases |s| + k
  {
    var z := seq(k, _ => '0');
    if s != [] {
      ZerosAddNothing(k, s[..|s| - 1]);
      assert (z + s)[..|z + s| - 1] == z + s[..|s| - 1];
    } else if k > 0 {
      ZerosAddNothing(k - 1, s);
      assert (z + s)[..k - 1] == seq(k - 1, _ => '0') + s;
    }
  }

  lemma Dec8Reads(n: nat)
    ensures Value(Dec8(n)) == n && IsDecimal(Dec8(n)) && |Dec8(n)| >= 8
  {
    DecReads(n);
    if |Dec(n)| < 8 {
      ZerosAddNothing(8 - |Dec(n)|, Dec(n));
    }
  }

  // --------------------------------------------------------------------- keys

  function SegmentKey(tenant: string, day: string, call: string, channel: nat, num: nat): string
  {
    "audio" + "/" + (tenant + "/" + (day + "/" + (call + "/" + (Dec(channel) + "/" + (Dec8(num) + ".opus")))))
  }

  function TenantPrefix(tenant: string): string { "audio" + "/" + (tenant + "/") }

  function DayPrefix(tenant: string, day: string): string { "audio" + "/" + (tenant + "/" + (day + "/")) }

  /** A component that cannot be mistaken for two. */
  predicate NoSlash(s: string) { '/' !in s }

  /** The first component determines itself and what follows it. */
  lemma ComponentsAgree(a: string, x: string, b: string, y: string)
    requires NoSlash(a) && NoSlash(b)
    ensures a + "/" + x <= b + "/" + y <==> a == b && x <= y
  {
    var p, q := a + "/" + x, b + "/" + y;
    if a == b && x <= y {
      assert q[..|p|] == p;
    }
    if p <= q {
      assert q[..|p|] == p;
      var n := Min(|a|, |b|);
      assert p[n] == q[n];
      assert |a| == |b|;
      assert a == p[..|a|] == q[..|a|] == b;
      assert x == p[|a| + 1..] && y == q[|a| + 1..];
      assert x == y[..|x|];
    }
  }

  lemma ComponentsEqual(a: string, x: string, b: string, y: string)
    requires NoSlash(a) && NoSlash(b) && a + "/" + x == b + "/" + y
    ensures a == b && x == y
  {
    ComponentsAgree(a, x, b, y);
    ComponentsAgree(b, y, a, x);
  }

  lemma DecimalHasNoSlash(s: string)
    requires IsDecimal(s)
    ensures NoSlash(s)
  {
  }

  lemma LastComponent(a: string, b: string, suffix: string)
    requires a + suffix == b + suffix
    ensures a == b
  {
    assert a == (a + suffix)[..|a + suffix| - |suffix|];
    assert b == (b + suffix)[..|b + suffix| - |suffix|];
  }

  /** Different segments never share a key. */
  lemma KeyInjective(t: string, d: string, c: string, ch: nat, n: nat, t': string, d': string, c': string, ch': nat, n': nat)
    requires NoSlash(t) && NoSlash(d) && NoSlash(c) && NoSlash(t') && NoSlash(d') && NoSlash(c')
    requires SegmentKey(t, d, c, ch, n) == SegmentKey(t', d', c', ch', n')
    ensures t == t' && d == d' && c == c' && ch == ch' && n == n'
  {
    hide Dec, Dec8, Value;
    var f, f' := Dec8(n) + ".opus", Dec8(n') + ".opus";
    var e, e' := Dec(ch) + "/" + f, Dec(ch') + "/" + f';
    ComponentsEqual("audio", t + "/" + (d + "/" + (c + "/" + e)), "audio", t' + "/" + (d' + "/" + (c' + "/" + e')));
    ComponentsEqual(t, d + "/" + (c + "/" + e), t', d' + "/" + (c' + "/" + e'));
    ComponentsEqual(d, c + "/" + e, d', c' + "/" + e');
    ComponentsEqual(c, e, c', e');
    DecReads(ch);
    DecReads(ch');
    DecimalHasNoSlash(Dec(ch));
    DecimalHasNoSlash(Dec(ch'));
    ComponentsEqual(Dec(ch), f, Dec(ch'), f');
    LastComponent(Dec8(n), Dec8(n'), ".opus");
    Dec8Reads(n);
    Dec8Reads(n');
  }

  /** With a slash in a component, two segments of different tenants can share a key. */
  lemma SlashMerges(call: string, channel: nat, num: nat)
    ensures SegmentKey("a/b", "c", call, channel, num) == SegmentKey("a", "b/c", call, channel, num)
  {
    hide Dec, Dec8;
    var rest := call + "/" + (Dec(channel) + "/" + (Dec8(num) + ".opus"));
    assert "a/b" + "/" + ("c" + "/" + rest) == "a" + "/" + ("b/c" + "/" + rest);
  }

  /** A day's prefix covers exactly that tenant's keys for that day. */
  lemma DayPrefixCovers(t: string, d: string, t': string, d': string, c: string, ch: nat, n: nat)
    requires NoSlash(t) && NoSlash(d) && NoSlash(t') && NoSlash(d')
    ensures DayPrefix(t, d) <= SegmentKey(t', d', c, ch, n) <==> t == t' && d == d'
  {
    hide Dec, Dec8;
    var rest := c + "/" + (Dec(ch) + "/" + (Dec8(n) + ".opus"));
    ComponentsAgree("audio", t + "/" + (d + "/"), "audio", t' + "/" + (d' + "/" + rest));
    ComponentsAgree(t, d + "/", t', d' + "/" + rest);
    ComponentsAgree(d, "", d', rest);
    assert d + "/" + "" == d + "/";
  }

  lemma TenantPrefixCovers(t: string, t': string, d: string, c: string, ch: nat, n: nat)
    requires NoSlash(t) && NoSlash(t')
    ensures TenantPrefix(t) <= SegmentKey(t', d, c, ch, n) <==> t == t'
  {
    hide Dec, Dec8;
    var rest := d + "/" + (c + "/" + (Dec(ch) + "/" + (Dec8(n) + ".opus")));
    ComponentsAgree("audio", t + "/", "audio", t' + "/" + rest);
    ComponentsAgree(t, "", t', rest);
    assert t + "/" + "" == t + "/";
  }

  // ------------------------------------------------------- the in-memory store

  /** The text up to the first slash. */
  function Head(s: string): (h: string)
    ensures NoSlash(h)
  {
    if s == [] || s[0] == '/' then "" else [s[0]] + Head(s[1..])
  }

  function Under(objects: set<string>, prefix: string): set<string> { set k | k in objects && prefix <= k }

  /** The non-empty names directly below a prefix. */
  function Children(objects: set<string>, prefix: string): set<string>
  {
    set k | k in objects && prefix <= k && Head(k[|prefix|..]) != "" :: Head(k[|prefix|..])
  }

  class MemoryBlobStore {
    var objects: map<string, seq<nat>>

    method Delete(key: string)
      modifies this
      ensures objects == old(objects) - {key}
    {
      objects := objects - {key};
    }

    /** Everything under the prefix goes, nothing else, and the count says how much. */
    method DeletePrefix(prefix: string) returns (n: nat)
      modifies this
      ensures objects == old(objects) - Under(old(objects).Keys, prefix)
      ensures n == |Under(old(objects).Keys, prefix)|
    {
      var doomed := Under(objects.Keys, prefix);
      var left := doomed;
      while left != {}
        invariant left <= doomed && objects == old(objects) - (doomed - left)
        decreases |left|
      {
        var key :| key in left;
        objects := objects - {key};
        left := left - {key};
      }
      n := |doomed|;
    }

    method DayPrefixes(prefix: string) returns (r: seq<string>)
      ensures TextOrdered(r)
      ensures forall p :: p in r <==> exists d :: d in Children(objects.Keys, prefix) && p == Below(prefix, d)
    {
      r := ListChildren(objects.Keys, prefix);
    }
  }

  /** The prefixes directly below `prefix`, each once, in order. */
  method ListChildren(objects: set<string>, prefix: string) returns (r: seq<string>)
    ensures TextOrdered(r)
    ensures forall p :: p in r <==> exists d :: d in Children(objects, prefix) && p == Below(prefix, d)
  {
    r := SortedTexts(set d | d in Children(objects, prefix) :: Below(prefix, d));
  }

  function Below(prefix: string, day: string): string { prefix + day + "/" }

  lemma BelowInjective(prefix: string, d: string, e: string)
    ensures Below(prefix, d) == Below(prefix, e) ==> d == e
  {
    assert d == Below(prefix, d)[|prefix|..|Below(prefix, d)| - 1];
    assert e == Below(prefix, e)[|prefix|..|Below(prefix, e)| - 1];
  }

  lemma {:induction false} HeadOfComponent(a: string, x: string)
    requires NoSlash(a)
    ensures Head(a + "/" + x) == a
  {
    if a == [] {
      assert (a + "/" + x)[0] == '/';
    } else {
      HeadOfComponent(a[1..], x);
      assert (a + "/" + x)[1..] == a[1..] + "/" + x;
    }
  }

  /** The day of every key of a tenant is listed below the tenant's prefix. */
  lemma DayIsListed(objects: set<string>, t: string, d: string, c: string, ch: nat, n: nat)
    requires NoSlash(t) && NoSlash(d) && d != "" && SegmentKey(t, d, c, ch, n) in objects
    ensures d in Children(objects, TenantPrefix(t))
  {
    hide Dec, Dec8;
    var k, p := SegmentKey(t, d, c, ch, n), TenantPrefix(t);
    var rest := c + "/" + (Dec(ch) + "/" + (Dec8(n) + ".opus"));
    assert k == p + (d + "/" + rest);
    assert k[|p|..] == d + "/" + rest;
    HeadOfComponent(d, rest);
    assert Head(k[|p|..]) == d;
  }

  // ---------------------------------------------------------- read back apart

  /** The components between slashes. */
  function Parts(s: string): seq<string>
    decreases |s|
  {
    var h := Head(s);
    if |h| < |s| then [h] + Parts(s[|h| + 1..]) else [h]
  }

  lemma PartsOf(a: string, rest: string)
    requires NoSlash(a)
    ensures Parts(a + "/" + rest) == [a] + Parts(rest)
  {
    hide Head;
    HeadOfComponent(a, rest);
    var s := a + "/" + rest;
    assert s[|a| + 1..] == rest;
  }

  lemma OnePart(a: string)
    requires NoSlash(a)
    ensures Parts(a) == [a]
  {
    HeadIsAll(a);
  }

  lemma {:induction false} HeadIsAll(a: string)
    requires NoSlash(a)
    ensures Head(a) == a
  {
    if a != [] { HeadIsAll(a[1..]); }
  }

  /** A key taken apart: six components in this order, the channel and the number in decimal, the number in at least eight digits. */
  lemma KeyParts(tenant: string, day: string, call: string, channel: nat, num: nat)
    requires NoSlash(tenant) && NoSlash(day) && NoSlash(call)
    ensures var parts := Parts(SegmentKey(tenant, day, call, channel, num));
            && |parts| == 6 && parts[..4] == ["audio", tenant, day, call]
            && IsDecimal(parts[4]) && Value(parts[4]) == channel
            && |parts[5]| >= 13 && var digits := parts[5][..|parts[5]| - 5];
               parts[5] == digits + ".opus" && IsDecimal(digits) && Value(digits) == num
  {
    hide Dec, Dec8, Value, Parts;
    DecReads(channel);
    Dec8Reads(num);
    var f := Dec8(num) + ".opus";
    PartsOf("audio", tenant + "/" + (day + "/" + (call + "/" + (Dec(channel) + "/" + f))));
    PartsOf(tenant, day + "/" + (call + "/" + (Dec(channel) + "/" + f)));
    PartsOf(day, call + "/" + (Dec(channel) + "/" + f));
    PartsOf(call, Dec(channel) + "/" + f);
    PartsOf(Dec(channel), f);
    OnePart(f);
    assert f[..|f| - 5] == Dec8(num);
  }
}
