/**
 The protocol version rule (`packages/protocol/src/index.ts`) on parsed versions, with
 precedence as section 11 of Semantic Versioning 2.0.0 has it.
 */
module Protocol {
  import opened Wrappers

  /** A dot-separated part of a pre-release: digits only, or not. */
  datatype Ident = Num(n: nat) | Alpha(text: string)

  /** Build metadata has no part in precedence. */
  datatype Version = Version(major: nat, minor: nat, patch: nat, pre: seq<Ident>)

  datatype Side = Local | Remote

  datatype Order = Less | Same | More

  function Flip(o: Order): Order {
    match o
    case Less => More
    case Same => Same
    case More => Less
  }

  function CompareNat(a: nat, b: nat): Order { if a < b then Less else if a == b then Same else More }

  /** In ASCII order. */
  function CompareText(a: string, b: string): Order {
    if a == [] || b == [] then CompareNat(|a|, |b|)
    else if a[0] != b[0] then CompareNat(a[0] as nat, b[0] as nat)
    else CompareText(a[1..], b[1..])
  }

  /** Numbers below words. */
  function CompareIdent(a: Ident, b: Ident): Order {
    match (a, b)
    case (Num(m), Num(n)) => CompareNat(m, n)
    case (Num(_), Alpha(_)) => Less
    case (Alpha(_), Num(_)) => More
    case (Alpha(s), Alpha(t)) => CompareText(s, t)
  }

  /** Part by part; when all are the same the longer list is higher. */
  function CompareIdents(a: seq<Ident>, b: seq<Ident>): Order {
    if a == [] || b == [] then CompareNat(|a|, |b|)
    else if CompareIdent(a[0], b[0]) != Same then CompareIdent(a[0], b[0])
    else CompareIdents(a[1..], b[1..])
  }

  /** A pre-release is below its release. */
  function ComparePre(a: seq<Ident>, b: seq<Ident>): Order {
    if a == [] && b == [] then Same
    else if a == [] then More
    else if b == [] then Less
    else CompareIdents(a, b)
  }

  function Behind(first: Order, rest: Order): Order { if first != Same then first else rest }

  function Compare(a: Version, b: Version): Order {
    Behind(CompareNat(a.major, b.major),
           Behind(CompareNat(a.minor, b.minor),
                  Behind(CompareNat(a.patch, b.patch), ComparePre(a.pre, b.pre))))
  }

  // ---- It is a total order ----

  lemma {:induction false} TextFlips(a: string, b: string)
    ensures CompareText(b, a) == Flip(CompareText(a, b))
    ensures CompareText(a, b) == Same <==> a == b
  {
    if a != [] && b != [] && a[0] == b[0] {
      TextFlips(a[1..], b[1..]);
      assert a == [a[0]] + a[1..] && b == [b[0]] + b[1..];
    }
  }

  lemma {:induction false} TextChains(a: string, b: string, c: string)
    requires CompareText(a, b) == Less && CompareText(b, c) == Less
    ensures CompareText(a, c) == Less
  {
    if a != [] && b != [] && c != [] && a[0] == b[0] == c[0] {
      TextChains(a[1..], b[1..], c[1..]);
    }
  }

  lemma IdentFlips(a: Ident, b: Ident)
    ensures CompareIdent(b, a) == Flip(CompareIdent(a, b))
    ensures CompareIdent(a, b) == Same <==> a == b
  {
    if a.Alpha? && b.Alpha? {
      TextFlips(a.text, b.text);
    }
  }

  lemma IdentChains(a: Ident, b: Ident, c: Ident)
    requires CompareIdent(a, b) == Less && CompareIdent(b, c) == Less
    ensures CompareIdent(a, c) == Less
  {
    if a.Alpha? && b.Alpha? && c.Alpha? {
      TextChains(a.text, b.text, c.text);
    }
  }

  lemma {:induction false} IdentsFlip(a: seq<Ident>, b: seq<Ident>)
    ensures CompareIdents(b, a) == Flip(CompareIdents(a, b))
    ensures CompareIdents(a, b) == Same <==> a == b
  {
    if a != [] && b != [] {
      IdentFlips(a[0], b[0]);
      if a[0] == b[0] {
        IdentsFlip(a[1..], b[1..]);
        assert a == [a[0]] + a[1..] && b == [b[0]] + b[1..];
      }
    }
  }

  lemma {:induction false} IdentsChain(a: seq<Ident>, b: seq<Ident>, c: seq<Ident>)
    requires CompareIdents(a, b) == Less && CompareIdents(b, c) == Less
    ensures CompareIdents(a, c) == Less
  {
    hide CompareIdent;
    if a != [] && b != [] && c != [] {
      IdentFlips(a[0], b[0]);
      IdentFlips(b[0], c[0]);
      if a[0] == b[0] == c[0] {
        IdentsChain(a[1..], b[1..], c[1..]);
      } else if a[0] != b[0] && b[0] != c[0] {
        IdentChains(a[0], b[0], c[0]);
      }
    }
  }

  /** Precedence is a strict total order; only equal versions have the same. */
  lemma TotalOrder(a: Version, b: Version)
    ensures Compare(b, a) == Flip(Compare(a, b))
    ensures Compare(a, b) == Same <==> a == b
  {
    IdentsFlip(a.pre, b.pre);
  }

  lemma OrderChains(a: Version, b: Version, c: Version)
    requires Compare(a, b) == Less && Compare(b, c) == Less
    ensures Compare(a, c) == Less
  {
    hide CompareIdents;
    if a.pre != [] && b.pre != [] && c.pre != [] && CompareIdents(a.pre, b.pre) == Less && CompareIdents(b.pre, c.pre) == Less {
      IdentsChain(a.pre, b.pre, c.pre);
    }
    IdentsFlip(a.pre, b.pre);
    IdentsFlip(b.pre, c.pre);
  }

  // ---- It is the precedence of section 11 ----

  /** Up to `k` they are the same, and there they differ or one of them ends. */
  ghost predicate PartAt<T>(a: seq<T>, b: seq<T>, k: nat) {
    && k <= |a| && k <= |b| && a[..k] == b[..k]
    && (k < |a| || k < |b|) && (k < |a| && k < |b| ==> a[k] != b[k])
  }

  /** In ASCII order: the first difference decides, and a text is above its beginnings. */
  ghost predicate TextLower(a: string, b: string) {
    exists k: nat :: PartAt(a, b, k) && (k == |a| || (k < |b| && a[k] < b[k]))
  }

  /** Numbers in numeric order, words in ASCII order, numbers below words. */
  ghost predicate IdentLower(a: Ident, b: Ident) {
    match a
    case Num(m) => b.Alpha? || m < b.n
    case Alpha(s) => b.Alpha? && TextLower(s, b.text)
  }

  /** A pre-release is below its release; of two the first part that differs decides, and
      the one with more parts is above when all others are the same. */
  ghost predicate PreLower(a: seq<Ident>, b: seq<Ident>) {
    && a != []
    && (b == [] || exists k: nat :: PartAt(a, b, k) && (k == |a| || (k < |b| && IdentLower(a[k], b[k]))))
  }

  /** Major, then minor, then patch, then pre-release. */
  ghost predicate Lower(a: Version, b: Version) {
    || a.major < b.major
    || (a.major == b.major && a.minor < b.minor)
    || (a.major == b.major && a.minor == b.minor && a.patch < b.patch)
    || (a.major == b.major && a.minor == b.minor && a.patch == b.patch && PreLower(a.pre, b.pre))
  }

  lemma PartNext<T>(a: seq<T>, b: seq<T>, k: nat)
    requires a != [] && b != [] && a[0] == b[0]
    ensures PartAt(a, b, k + 1) <==> PartAt(a[1..], b[1..], k)
    ensures !PartAt(a, b, 0)
  {
    if k + 1 <= |a| && k + 1 <= |b| {
      assert a[..k + 1] == [a[0]] + a[1..][..k] && b[..k + 1] == [b[0]] + b[1..][..k];
      assert a[..k + 1] == b[..k + 1] <==> a[1..][..k] == b[1..][..k] by {
        assert a[..k + 1][1..] == a[1..][..k] && b[..k + 1][1..] == b[1..][..k];
      }
    }
  }

  lemma PartFirst<T>(a: seq<T>, b: seq<T>, k: nat)
    requires a == [] || b == [] || a[0] != b[0]
    ensures PartAt(a, b, k) <==> k == 0 && (a != [] || b != [])
  {
    if k > 0 && k <= |a| && k <= |b| {
      assert a[..k][0] == a[0] && b[..k][0] == b[0];
    }
  }

  lemma {:induction false} TextIs(a: string, b: string)
    ensures CompareText(a, b) == Less <==> TextLower(a, b)
  {
    if a == [] || b == [] || a[0] != b[0] {
      forall k: nat
        ensures PartAt(a, b, k) <==> k == 0 && (a != [] || b != [])
      {
        PartFirst(a, b, k);
      }
      assert PartAt(a, b, 0) <==> a != [] || b != [];
    } else {
      TextIs(a[1..], b[1..]);
      forall k: nat
        ensures PartAt(a, b, k + 1) <==> PartAt(a[1..], b[1..], k)
      {
        PartNext(a, b, k);
      }
      PartNext(a, b, 0);
      if TextLower(a, b) {
        var k: nat :| PartAt(a, b, k) && (k == |a| || (k < |b| && a[k] < b[k]));
        assert PartAt(a[1..], b[1..], k - 1);
      }
      if TextLower(a[1..], b[1..]) {
        var k: nat :| PartAt(a[1..], b[1..], k) && (k == |a| - 1 || (k < |b| - 1 && a[1..][k] < b[1..][k]));
        assert PartAt(a, b, k + 1);
      }
    }
  }

  lemma IdentIs(a: Ident, b: Ident)
    ensures CompareIdent(a, b) == Less <==> IdentLower(a, b)
  {
    if a.Alpha? && b.Alpha? {
      TextIs(a.text, b.text);
    }
  }

  ghost predicate IdentsLower(a: seq<Ident>, b: seq<Ident>) {
    exists k: nat :: PartAt(a, b, k) && (k == |a| || (k < |b| && IdentLower(a[k], b[k])))
  }

  lemma {:induction false} IdentsIs(a: seq<Ident>, b: seq<Ident>)
    ensures CompareIdents(a, b) == Less <==> IdentsLower(a, b)
  {
    hide CompareIdent, IdentLower;
    if a == [] || b == [] || a[0] != b[0] {
      forall k: nat
        ensures PartAt(a, b, k) <==> k == 0 && (a != [] || b != [])
      {
        PartFirst(a, b, k);
      }
      assert PartAt(a, b, 0) <==> a != [] || b != [];
      if a != [] && b != [] {
        IdentIs(a[0], b[0]);
        IdentFlips(a[0], b[0]);
      }
    } else {
      IdentFlips(a[0], b[0]);
      IdentsIs(a[1..], b[1..]);
      forall k: nat
        ensures PartAt(a, b, k + 1) <==> PartAt(a[1..], b[1..], k)
      {
        PartNext(a, b, k);
      }
      PartNext(a, b, 0);
      if IdentsLower(a, b) {
        var k: nat :| PartAt(a, b, k) && (k == |a| || (k < |b| && IdentLower(a[k], b[k])));
        assert PartAt(a[1..], b[1..], k - 1);
      }
      if IdentsLower(a[1..], b[1..]) {
        var k: nat :| PartAt(a[1..], b[1..], k) && (k == |a| - 1 || (k < |b| - 1 && IdentLower(a[1..][k], b[1..][k])));
        assert PartAt(a, b, k + 1);
      }
    }
  }

  /** The comparison is the precedence of section 11 of Semantic Versioning 2.0.0. */
  lemma CompareIsPrecedence(a: Version, b: Version)
    ensures Compare(a, b) == Less <==> Lower(a, b)
    ensures Compare(a, b) == More <==> Lower(b, a)
  {
    hide PreLower, ComparePre;
    PreIs(a.pre, b.pre);
    PreIs(b.pre, a.pre);
    TotalOrder(a, b);
    TotalOrder(b, a);
  }

  lemma PreIs(a: seq<Ident>, b: seq<Ident>)
    ensures ComparePre(a, b) == Less <==> PreLower(a, b)
  {
    hide CompareIdents, IdentLower;
    IdentsIs(a, b);
  }

  // ---- The rule ----

  /** `isProtocolCompatible`: `None` is a version that does not parse. */
  predicate Compatible(remote: Option<Version>, local: Option<Version>) {
    && remote.Some? && local.Some?
    && var r, l := remote.value, local.value;
       if r.pre != [] || l.pre != [] then Compare(r, l) == Same
       else r.major == l.major && (l.major == 0 ==> r.minor == l.minor)
  }

  /** `outdatedSide` */
  function OutdatedSide(remote: Option<Version>, local: Option<Version>): Option<Side> {
    if remote.None? || local.None? then None
    else if Compare(remote.value, local.value) == Same then None
    else if Compare(remote.value, local.value) == Less then Some(Remote)
    else Some(Local)
  }

  /** An equivalence on versions that parse; so what one end accepts the other does. */
  lemma CompatibleIsEquivalence(a: Version, b: Version, c: Version)
    ensures Compatible(Some(a), Some(a))
    ensures Compatible(Some(a), Some(b)) <==> Compatible(Some(b), Some(a))
    ensures Compatible(Some(a), Some(b)) && Compatible(Some(b), Some(c)) ==> Compatible(Some(a), Some(c))
  {
    hide Compare;
    TotalOrder(a, a);
    TotalOrder(a, b);
    TotalOrder(b, c);
    TotalOrder(a, c);
  }

  /** The line within which versions understand each other. */
  datatype Line = Exactly(version: Version) | ZeroMinor(minor: nat) | Major(major: nat)

  function LineOf(v: Version): Line {
    if v.pre != [] then Exactly(v) else if v.major == 0 then ZeroMinor(v.minor) else Major(v.major)
  }

  /** Compatible is: on the same line. */
  lemma CompatibleIsSameLine(a: Version, b: Version)
    ensures Compatible(Some(a), Some(b)) <==> LineOf(a) == LineOf(b)
  {
    hide Compare;
    TotalOrder(a, b);
  }

  /** On a mismatch both ends name the same peer: what is remote to one is local to the
      other, and it is the lower one. */
  lemma SameSideIsOutdated(a: Version, b: Version)
    requires !Compatible(Some(a), Some(b))
    ensures OutdatedSide(Some(a), Some(b)) == Some(Remote) <==> OutdatedSide(Some(b), Some(a)) == Some(Local)
    ensures OutdatedSide(Some(a), Some(b)) == Some(Local) <==> OutdatedSide(Some(b), Some(a)) == Some(Remote)
    ensures OutdatedSide(Some(a), Some(b)) == Some(if Compare(a, b) == Less then Remote else Local)
  {
    hide Compare;
    TotalOrder(a, b);
    CompatibleIsEquivalence(a, a, a);
  }
}
