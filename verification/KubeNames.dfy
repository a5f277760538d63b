/** Kubernetes object names kept within a length limit and bound to an identity by a hash
    (lego/types/k8sname/k8sname.go). Names are ASCII bytes. A label is at most 63 octets
    (section 2.3.4 of RFC 1035) with the syntax of section 2.1 of RFC 1123. */
module KubeNames {

  type Char = c: int | 0 <= c < 128

  type Name = seq<Char>

  /** The first six bytes of a SHA-256 digest. */
  type Digest = d: seq<int> | |d| == 6 && forall i :: 0 <= i < |d| ==> 0 <= d[i] < 256
    witness [0, 0, 0, 0, 0, 0]

  const MAX_LABEL := 63
  const MAX_CRON_JOB := 52
  const HASH_LENGTH := 12

  /** What a Job of a CronJob appends to its name: a dash and a ten-digit timestamp. */
  const JOB_SUFFIX := 11

  const NUL: Char := 0
  const DASH: Char := 0x2D
  const DOT: Char := 0x2E

  // ----- strings.ToLower, strings.Join, strings.TrimRight and %x

  function LowerChar(c: Char): Char {
    if 0x41 <= c <= 0x5A then c + 32 else c
  }

  function Lower(s: Name): (r: Name)
    ensures |r| == |s|
    ensures forall i :: 0 <= i < |s| ==> r[i] == LowerChar(s[i])
  {
    seq(|s|, i requires 0 <= i < |s| => LowerChar(s[i]))
  }

  function Join(parts: seq<Name>): Name {
    if parts == [] then []
    else if |parts| == 1 then parts[0]
    else parts[0] + [NUL] + Join(parts[1..])
  }

  predicate IsSeparator(c: Char) {
    c == DASH || c == DOT
  }

  function TrimRight(s: Name): (r: Name)
    ensures r <= s
    ensures r != [] ==> !IsSeparator(r[|r| - 1])
    ensures forall i :: |r| <= i < |s| ==> IsSeparator(s[i])
  {
    if s != [] && IsSeparator(s[|s| - 1]) then TrimRight(s[..|s| - 1]) else s
  }

  function HexChar(n: int): Char
    requires 0 <= n < 16
  {
    if n < 10 then 0x30 + n else 0x61 + n - 10
  }

  function HexByte(b: int): Name
    requires 0 <= b < 256
  {
    [HexChar(b / 16), HexChar(b % 16)]
  }

  function Hex(d: Digest): (r: Name)
    ensures |r| == HASH_LENGTH
  {
    HexByte(d[0]) + HexByte(d[1]) + HexByte(d[2]) + HexByte(d[3]) + HexByte(d[4]) + HexByte(d[5])
  }

  // ----- stable and fit

  /** The readable part of a bounded name. */
  function Base(limit: int, raw: Name): Name
    requires limit > HASH_LENGTH
  {
    var lower := Lower(raw);
    var maxBase := limit - 1 - HASH_LENGTH;
    TrimRight(if |lower| > maxBase then lower[..maxBase] else lower)
  }

  function Stable(limit: int, hash: Name -> Digest, raw: Name, parts: seq<Name>): Name
    requires limit > HASH_LENGTH
  {
    Base(limit, raw) + [DASH] + Hex(hash(Join(parts)))
  }

  function Fit(limit: int, hash: Name -> Digest, raw: Name): Name
    requires limit > HASH_LENGTH
  {
    var lower := Lower(raw);
    if |lower| <= limit then lower else Stable(limit, hash, lower, [lower])
  }

  // ----- Hexadecimal and lower case

  lemma HexByteInjective(a: int, b: int)
    requires 0 <= a < 256 && 0 <= b < 256 && HexByte(a) == HexByte(b)
    ensures a == b
  {
  }

  lemma HexPair(d: Digest, i: int)
    requires 0 <= i < 6
    ensures Hex(d)[2 * i..2 * i + 2] == HexByte(d[i])
  {
  }

  lemma HexInjective(a: Digest, b: Digest)
    ensures Hex(a) == Hex(b) <==> a == b
  {
    hide Hex, HexByte;
    if Hex(a) == Hex(b) {
      forall i | 0 <= i < 6
        ensures a[i] == b[i]
      {
        HexPair(a, i);
        HexPair(b, i);
        HexByteInjective(a[i], b[i]);
      }
    }
  }

  predicate IsAlphanumeric(c: Char) {
    0x61 <= c <= 0x7A || 0x30 <= c <= 0x39
  }

  lemma HexIsAlphanumeric(d: Digest)
    ensures forall i :: 0 <= i < HASH_LENGTH ==> IsAlphanumeric(Hex(d)[i])
  {
  }

  lemma LowerIdempotent(s: Name)
    ensures Lower(Lower(s)) == Lower(s)
  {
  }

  // ----- Length and content

  lemma BaseIsReadable(limit: int, raw: Name)
    requires limit > HASH_LENGTH
    ensures var base := Base(limit, raw);
            && |base| <= limit - 1 - HASH_LENGTH
            && base <= Lower(raw)
            && (base != [] ==> !IsSeparator(base[|base| - 1]))
            && forall i :: |base| <= i < |raw| && i < limit - 1 - HASH_LENGTH ==> IsSeparator(LowerChar(raw[i]))
  {
  }

  /** Both limits hold for every input, and a CronJob's name leaves its Jobs their suffix. */
  lemma NamesAreBounded(limit: int, hash: Name -> Digest, raw: Name, parts: seq<Name>)
    requires limit > HASH_LENGTH
    ensures |Stable(limit, hash, raw, parts)| <= limit
    ensures |Fit(limit, hash, raw)| <= limit
    ensures |Fit(MAX_CRON_JOB, hash, raw)| + JOB_SUFFIX <= MAX_LABEL
  {
  }

  lemma StableIsLower(limit: int, hash: Name -> Digest, raw: Name, parts: seq<Name>)
    requires limit > HASH_LENGTH
    ensures Lower(Stable(limit, hash, raw, parts)) == Stable(limit, hash, raw, parts)
  {
    hide Hex;
    var base, digest := Base(limit, raw), Hex(hash(Join(parts)));
    BaseIsReadable(limit, raw);
    HexIsAlphanumeric(hash(Join(parts)));
    forall i | 0 <= i < |base|
      ensures LowerChar(base[i]) == base[i]
    {
      assert base[i] == Lower(raw)[i];
    }
    var name := base + [DASH] + digest;
    forall i | 0 <= i < |name|
      ensures LowerChar(name[i]) == name[i]
    {
    }
  }

  /** A name is unchanged up to case exactly when it fits, and fitting twice is fitting once. */
  lemma FitKeepsWhatFits(limit: int, hash: Name -> Digest, raw: Name)
    requires limit > HASH_LENGTH
    ensures Fit(limit, hash, raw) == Lower(raw) <==> |raw| <= limit
    ensures Fit(limit, hash, Fit(limit, hash, raw)) == Fit(limit, hash, raw)
    ensures Lower(Fit(limit, hash, raw)) == Fit(limit, hash, raw)
  {
    hide Stable;
    NamesAreBounded(limit, hash, Lower(raw), [Lower(raw)]);
    NamesAreBounded(limit, hash, raw, []);
    LowerIdempotent(raw);
    StableIsLower(limit, hash, Lower(raw), [Lower(raw)]);
  }

  // ----- Identity

  /** Two bounded names are equal exactly when the readable parts and the hashes are. */
  lemma StableBindsTheHash(limit: int, hash: Name -> Digest, raw: Name, parts: seq<Name>, raw': Name, parts': seq<Name>)
    requires limit > HASH_LENGTH
    ensures Stable(limit, hash, raw, parts) == Stable(limit, hash, raw', parts')
       <==> Base(limit, raw) == Base(limit, raw') && hash(Join(parts)) == hash(Join(parts'))
  {
    hide Hex, Base;
    var digest, digest' := Hex(hash(Join(parts))), Hex(hash(Join(parts')));
    HexInjective(hash(Join(parts)), hash(Join(parts')));
    if Stable(limit, hash, raw, parts) == Stable(limit, hash, raw', parts') {
      SameTails(Base(limit, raw), digest, Base(limit, raw'), digest');
    }
  }

  lemma SameTails(a: Name, x: Name, b: Name, y: Name)
    requires |x| == |y| && a + [DASH] + x == b + [DASH] + y
    ensures a == b && x == y
  {
    var s, t := a + [DASH] + x, b + [DASH] + y;
    assert s[..|a|] == a && t[..|b|] == b;
    assert s[|a| + 1..] == x && t[|b| + 1..] == y;
  }

  ghost predicate NulFree(s: Name) {
    NUL !in s
  }

  ghost predicate AllNulFree(parts: seq<Name>) {
    forall i :: 0 <= i < |parts| ==> NulFree(parts[i])
  }

  lemma FirstNul(a: Name, s: Name, b: Name, t: Name)
    requires NulFree(a) && NulFree(b) && a + [NUL] + s == b + [NUL] + t
    ensures a == b && s == t
  {
    var u, v := a + [NUL] + s, b + [NUL] + t;
    assert forall i :: 0 <= i < |a| ==> u[i] == a[i];
    assert forall i :: 0 <= i < |b| ==> v[i] == b[i];
    assert u[|a|] == NUL && v[|b|] == NUL;
    assert |a| == |b|;
    assert u[..|a|] == a && v[..|b|] == b;
    assert u[|a| + 1..] == s && v[|b| + 1..] == t;
  }

  /** Joining NUL-free parts loses nothing, except that no part and one empty part join alike. */
  lemma {:induction false} JoinInjective(a: seq<Name>, b: seq<Name>)
    requires AllNulFree(a) && AllNulFree(b)
    ensures Join(a) == Join(b) <==> a == b || (a in {[], [[]]} && b in {[], [[]]})
    decreases |a| + |b|
  {
    if |a| <= 1 {
      JoinShort(a, b);
    } else if |b| <= 1 {
      JoinShort(b, a);
    } else {
      assert a == [a[0]] + a[1..] && b == [b[0]] + b[1..];
      if Join(a) == Join(b) {
        FirstNul(a[0], Join(a[1..]), b[0], Join(b[1..]));
        JoinInjective(a[1..], b[1..]);
        JoinKeepsArity(a[1..], b[1..]);
      }
    }
  }

  lemma JoinKeepsArity(a: seq<Name>, b: seq<Name>)
    requires |a| >= 1 && |b| >= 1
    requires a == b || (a in {[], [[]]} && b in {[], [[]]})
    ensures a == b
  {
  }

  lemma JoinShort(a: seq<Name>, b: seq<Name>)
    requires AllNulFree(a) && AllNulFree(b) && |a| <= 1
    ensures Join(a) == Join(b) <==> a == b || (a in {[], [[]]} && b in {[], [[]]})
  {
    assert NulFree(Join(a));
    if |b| >= 2 {
      assert Join(b)[|b[0]|] == NUL;
      assert b != a;
    } else {
      assert a == (if a == [] then [] else [a[0]]);
      assert b == (if b == [] then [] else [b[0]]);
    }
  }

  /** The hash tells two texts apart. */
  ghost predicate Distinguishes(hash: Name -> Digest, s: Name, t: Name) {
    hash(s) == hash(t) ==> s == t
  }

  /** With a hash that tells their joined parts apart, two names are equal only for the same
      readable part and the same identity tuple; an absent tuple and one empty part count as
      the same. */
  lemma StableBindsTheIdentity(limit: int, hash: Name -> Digest, raw: Name, parts: seq<Name>, raw': Name,
                               parts': seq<Name>)
    requires limit > HASH_LENGTH
    requires AllNulFree(parts) && AllNulFree(parts')
    requires Distinguishes(hash, Join(parts), Join(parts'))
    ensures Stable(limit, hash, raw, parts) == Stable(limit, hash, raw', parts')
       <==> && Base(limit, raw) == Base(limit, raw')
            && (parts == parts' || (parts in {[], [[]]} && parts' in {[], [[]]}))
  {
    hide Stable, Base, Join;
    StableBindsTheHash(limit, hash, raw, parts, raw', parts');
    JoinInjective(parts, parts');
  }

  // ----- Which names share a bounded name

  /** With a hash that tells two names apart, over-limit names never share a name. */
  lemma LongNamesStayApart(limit: int, hash: Name -> Digest, a: Name, b: Name)
    requires limit > HASH_LENGTH && |a| > limit && |b| > limit
    requires Distinguishes(hash, Lower(a), Lower(b))
    ensures Fit(limit, hash, a) == Fit(limit, hash, b) <==> Lower(a) == Lower(b)
  {
    hide Stable, Base;
    assert Join([Lower(a)]) == Lower(a) && Join([Lower(b)]) == Lower(b);
    StableBindsTheHash(limit, hash, Lower(a), [Lower(a)], Lower(b), [Lower(b)]);
  }

  predicate IsHexChar(c: Char) {
    0x30 <= c <= 0x39 || 0x61 <= c <= 0x66
  }

  /** The shape of a bounded name: within the limit, it ends in a dash and twelve lower-case hex
      digits, and what stands before the dash does not end in a separator. */
  predicate LooksBounded(limit: int, s: Name) {
    var cut := |s| - 1 - HASH_LENGTH;
    && 0 <= cut && |s| <= limit
    && s[cut] == DASH
    && (cut > 0 ==> !IsSeparator(s[cut - 1]))
    && forall i :: cut < i < |s| ==> IsHexChar(s[i])
  }

  lemma HexIsHex(d: Digest, i: int)
    requires 0 <= i < HASH_LENGTH
    ensures IsHexChar(Hex(d)[i])
  {
  }

  lemma StableLooksBounded(limit: int, hash: Name -> Digest, raw: Name, parts: seq<Name>)
    requires limit > HASH_LENGTH
    ensures LooksBounded(limit, Stable(limit, hash, raw, parts))
  {
    hide Hex, Base, IsHexChar, IsSeparator;
    var base, digest := Base(limit, raw), Hex(hash(Join(parts)));
    var name := base + [DASH] + digest;
    BaseIsReadable(limit, raw);
    forall i | |base| < i < |name|
      ensures IsHexChar(name[i])
    {
      HexIsHex(hash(Join(parts)), i - |base| - 1);
      assert name[i] == digest[i - |base| - 1];
    }
  }

  /** A short name that does not have the shape shares its name with nothing but itself, whatever
      the hash is. */
  lemma ShapelessNamesAreSafe(limit: int, hash: Name -> Digest, a: Name, b: Name)
    requires limit > HASH_LENGTH && |a| <= limit && !LooksBounded(limit, Lower(a))
    ensures Fit(limit, hash, a) == Fit(limit, hash, b) <==> Lower(a) == Lower(b)
  {
    hide Stable, LooksBounded;
    if |b| > limit {
      StableLooksBounded(limit, hash, Lower(b), [Lower(b)]);
    }
  }

  /** For every short name of that shape there is an over-limit one that shares its name under
      every hash with the right value on it. */
  lemma ShapedNamesAreShared(limit: int, hash: Name -> Digest, a: Name) returns (b: Name, d: Digest)
    requires limit > HASH_LENGTH && LooksBounded(limit, Lower(a))
    ensures b == Overlong(limit, Lower(a)) && |b| > limit && Lower(b) == b
    ensures d == FromHex(Lower(a)[|a| - HASH_LENGTH..])
    ensures Fit(limit, hash, a) == Fit(limit, hash, b) <==> hash(b) == d
  {
    hide FromHex, Hex, Base;
    var lower := Lower(a);
    var base, tail := lower[..|a| - 1 - HASH_LENGTH], lower[|a| - HASH_LENGTH..];
    assert lower == base + [DASH] + tail;
    b, d := Overlong(limit, lower), FromHex(tail);
    OverlongIsLower(limit, a);
    OverlongHasBase(limit, a);
    assert Join([b]) == b;
    HexOfFromHex(tail);
    HexInjective(hash(b), d);
    if Fit(limit, hash, b) == Fit(limit, hash, a) {
      SameTails(base, Hex(hash(b)), base, tail);
    }
  }

  /** What stands before the hash, filled with dashes beyond the limit. */
  function Overlong(limit: int, s: Name): (r: Name)
    requires LooksBounded(limit, s)
    ensures |r| == limit + 1
  {
    var base := s[..|s| - 1 - HASH_LENGTH];
    base + Dashes(limit + 1 - |base|)
  }

  function Dashes(n: nat): (r: Name)
    ensures |r| == n && forall i :: 0 <= i < n ==> r[i] == DASH
  {
    seq(n, i => DASH)
  }

  lemma OverlongIsLower(limit: int, a: Name)
    requires LooksBounded(limit, Lower(a))
    ensures Lower(Overlong(limit, Lower(a))) == Overlong(limit, Lower(a))
  {
    var cut, r := |a| - 1 - HASH_LENGTH, Overlong(limit, Lower(a));
    forall i | 0 <= i < |r|
      ensures LowerChar(r[i]) == r[i]
    {
      assert r[i] == if i < cut then Lower(a)[i] else DASH;
    }
  }

  lemma OverlongHasBase(limit: int, a: Name)
    requires limit > HASH_LENGTH && LooksBounded(limit, Lower(a))
    ensures Base(limit, Overlong(limit, Lower(a))) == Lower(a)[..|a| - 1 - HASH_LENGTH]
  {
    var cut, r := |a| - 1 - HASH_LENGTH, Overlong(limit, Lower(a));
    OverlongIsLower(limit, a);
    var whole := r[..limit - 1 - HASH_LENGTH];
    forall i | cut <= i < |whole|
      ensures IsSeparator(whole[i])
    {
      assert r[i] == DASH;
    }
    assert whole[..cut] == Lower(a)[..cut];
    TrimsTo(whole, cut);
  }

  lemma {:induction false} TrimsTo(s: Name, cut: int)
    requires 0 <= cut <= |s|
    requires cut > 0 ==> !IsSeparator(s[cut - 1])
    requires forall i :: cut <= i < |s| ==> IsSeparator(s[i])
    ensures TrimRight(s) == s[..cut]
  {
    if cut < |s| {
      TrimsTo(s[..|s| - 1], cut);
      assert s[..|s| - 1][..cut] == s[..cut];
    } else {
      assert s[..cut] == s;
    }
  }

  function HexValue(c: Char): (n: int)
    requires IsHexChar(c)
    ensures 0 <= n < 16 && HexChar(n) == c
  {
    if c <= 0x39 then c - 0x30 else c - 0x61 + 10
  }

  function FromHex(s: Name): Digest
    requires |s| == HASH_LENGTH && forall i :: 0 <= i < HASH_LENGTH ==> IsHexChar(s[i])
  {
    seq(6, i requires 0 <= i < 6 => 16 * HexValue(s[2 * i]) + HexValue(s[2 * i + 1]))
  }

  lemma HexOfFromHex(s: Name)
    requires |s| == HASH_LENGTH && forall i :: 0 <= i < HASH_LENGTH ==> IsHexChar(s[i])
    ensures Hex(FromHex(s)) == s
  {
    hide Hex;
    forall i | 0 <= i < 6
      ensures Hex(FromHex(s))[2 * i] == s[2 * i] && Hex(FromHex(s))[2 * i + 1] == s[2 * i + 1]
    {
      HexPair(FromHex(s), i);
      assert Hex(FromHex(s))[2 * i] == HexByte(FromHex(s)[i])[0];
      assert Hex(FromHex(s))[2 * i + 1] == HexByte(FromHex(s)[i])[1];
    }
    forall k | 0 <= k < HASH_LENGTH
      ensures Hex(FromHex(s))[k] == s[k]
    {
      assert k == 2 * (k / 2) || k == 2 * (k / 2) + 1;
    }
  }

  /** Under any hash the shape is met: the bounded form of an over-limit name is a different,
      short name with the same result. */
  lemma BoundedNameIsTaken(limit: int, hash: Name -> Digest, long: Name)
    requires limit > HASH_LENGTH && |long| > limit
    ensures LooksBounded(limit, Fit(limit, hash, long)) && Fit(limit, hash, long) != Lower(long)
    ensures Fit(limit, hash, Fit(limit, hash, long)) == Fit(limit, hash, long)
  {
    hide Stable, LooksBounded;
    FitKeepsWhatFits(limit, hash, long);
    StableLooksBounded(limit, hash, Lower(long), [Lower(long)]);
  }

  // ----- Label syntax

  predicate IsLabelChar(c: Char) {
    IsAlphanumeric(c) || c == DASH
  }

  predicate IsLabel(s: Name) {
    && 0 < |s| <= MAX_LABEL
    && IsAlphanumeric(s[0])
    && IsAlphanumeric(s[|s| - 1])
    && forall i :: 0 <= i < |s| ==> IsLabelChar(s[i])
  }

  /** A bounded name is a label exactly when the text it starts from begins with a letter or
      digit and its readable part holds label characters only. Case and the cut never matter. */
  lemma StableIsLabel(limit: int, hash: Name -> Digest, raw: Name, parts: seq<Name>)
    requires HASH_LENGTH < limit - 1 && limit <= MAX_LABEL
    ensures IsLabel(Stable(limit, hash, raw, parts))
       <==> && raw != []
            && IsAlphanumeric(LowerChar(raw[0]))
            && forall i :: 0 <= i < |Base(limit, raw)| ==> IsLabelChar(LowerChar(raw[i]))
  {
    hide Hex;
    var base, digest := Base(limit, raw), Hex(hash(Join(parts)));
    var name := base + [DASH] + digest;
    BaseIsReadable(limit, raw);
    HexIsAlphanumeric(hash(Join(parts)));
    assert forall i :: 0 <= i < |base| ==> base[i] == LowerChar(raw[i]) by {
      forall i | 0 <= i < |base|
        ensures base[i] == LowerChar(raw[i])
      {
        assert base[i] == Lower(raw)[i];
      }
    }
    assert name[|name| - 1] == digest[|digest| - 1];
    if base == [] {
      assert name[0] == DASH;
    } else {
      assert name[0] == base[0];
      forall i | 0 <= i < |name|
        ensures IsLabelChar(name[i]) <==> i >= |base| || IsLabelChar(LowerChar(raw[i]))
      {
      }
    }
  }

  /** A valid label always stays one, however it is bounded. */
  lemma LabelsStayLabels(limit: int, hash: Name -> Digest, raw: Name)
    requires HASH_LENGTH < limit - 1 && limit <= MAX_LABEL
    requires raw != [] && forall i :: 0 <= i < |raw| ==> IsLabelChar(LowerChar(raw[i]))
    requires IsAlphanumeric(LowerChar(raw[0])) && IsAlphanumeric(LowerChar(raw[|raw| - 1]))
    ensures IsLabel(Fit(limit, hash, raw))
  {
    hide Stable, Base, IsLabelChar, IsAlphanumeric;
    var lower := Lower(raw);
    BaseIsReadable(limit, lower);
    StableIsLabel(limit, hash, lower, [lower]);
    LowerIdempotent(raw);
    forall i | 0 <= i < |lower|
      ensures LowerChar(lower[i]) == lower[i] && IsLabelChar(lower[i])
    {
      assert Lower(lower)[i] == LowerChar(lower[i]);
      assert IsLabelChar(LowerChar(raw[i]));
    }
  }

  /** The Job a CronJob spawns has a valid name too. */
  lemma JobNamesAreLabels(hash: Name -> Digest, raw: Name, suffix: Name)
    requires IsLabel(Fit(MAX_CRON_JOB, hash, raw))
    requires |suffix| == JOB_SUFFIX && suffix[0] == DASH
    requires forall i :: 1 <= i < |suffix| ==> 0x30 <= suffix[i] <= 0x39
    ensures IsLabel(Fit(MAX_CRON_JOB, hash, raw) + suffix)
  {
  }

  /** A text whose readable part would be separators only gives no valid label: the name begins
      with the dash before the hash. */
  lemma SeparatorsGiveNoLabel(limit: int, hash: Name -> Digest, raw: Name, parts: seq<Name>)
    requires limit > HASH_LENGTH
    requires forall i :: 0 <= i < |raw| && i < limit - 1 - HASH_LENGTH ==> IsSeparator(raw[i])
    ensures Stable(limit, hash, raw, parts)[0] == DASH
    ensures !IsLabel(Stable(limit, hash, raw, parts))
  {
    var lower, maxBase := Lower(raw), limit - 1 - HASH_LENGTH;
    var whole := if |lower| > maxBase then lower[..maxBase] else lower;
    forall i | 0 <= i < |whole|
      ensures IsSeparator(whole[i])
    {
      assert whole[i] == LowerChar(raw[i]);
    }
    TrimsTo(whole, 0);
  }
}
