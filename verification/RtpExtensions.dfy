/** RTP header extensions: looking them up by URI and reducing a list of them
    to a canonical one. */
module RtpExtensions {
  import opened Common

  datatype RtpExtension = RtpExtension(uri: string, id: int, encrypt: bool)

  datatype Filter = DiscardEncrypted | PreferEncrypted | RequireEncrypted

  // ------------------------------------------------------- order of a result

  predicate StringLess(a: string, b: string)
    decreases |a|
  {
    if a == [] then b != []
    else b != [] && (a[0] < b[0] || (a[0] == b[0] && StringLess(a[1..], b[1..])))
  }

  /** By URI, then by encryption, then by id. */
  predicate Less(a: RtpExtension, b: RtpExtension) {
    StringLess(a.uri, b.uri) ||
    (a.uri == b.uri && ((!a.encrypt && b.encrypt) || (a.encrypt == b.encrypt && a.id < b.id)))
  }

  /** `a` comes before `b` in the dictionary: up to some place they are the same,
      and there `a` ends, or has the smaller character. */
  ghost predicate Precedes(a: string, b: string) {
    exists k: nat :: PrecedesAt(a, b, k)
  }

  ghost predicate PrecedesAt(a: string, b: string, k: nat) {
    k <= |a| && k < |b| && (forall i | 0 <= i < k :: a[i] == b[i]) && (k == |a| || a[k] < b[k])
  }

  lemma {:induction false} StringLessIs(a: string, b: string)
    ensures StringLess(a, b) <==> Precedes(a, b)
    decreases |a|
  {
    if a == [] || b == [] || a[0] != b[0] {
      if StringLess(a, b) { assert PrecedesAt(a, b, 0); }
    } else {
      StringLessIs(a[1..], b[1..]);
      if StringLess(a, b) {
        var k: nat :| PrecedesAt(a[1..], b[1..], k);
        assert PrecedesAt(a, b, k + 1);
      }
      if Precedes(a, b) {
        var k: nat :| PrecedesAt(a, b, k);
        assert PrecedesAt(a[1..], b[1..], k - 1);
      }
    }
  }

  /** The order of the result: ascending by URI, then unencrypted before
      encrypted, then ascending by id. */
  lemma LessIs(a: RtpExtension, b: RtpExtension)
    ensures Less(a, b) <==>
            || Precedes(a.uri, b.uri)
            || (a.uri == b.uri && !a.encrypt && b.encrypt)
            || (a.uri == b.uri && a.encrypt == b.encrypt && a.id < b.id)
  {
    StringLessIs(a.uri, b.uri);
  }

  lemma SortedAscending(r: seq<RtpExtension>)
    requires StrictlySorted(r) && UniqueUris(r)
    ensures forall i, j | 0 <= i < j < |r| :: Precedes(r[i].uri, r[j].uri)
  {
    forall i, j | 0 <= i < j < |r| ensures Precedes(r[i].uri, r[j].uri) {
      LessIs(r[i], r[j]);
    }
  }

  lemma {:induction false} StringTotal(a: string, b: string)
    ensures a == b || StringLess(a, b) || StringLess(b, a)
    ensures !(StringLess(a, b) && StringLess(b, a))
    ensures !StringLess(a, a)
    decreases |a| + |b|
  {
    if a != [] {
      if b != [] {
        StringTotal(a[1..], b[1..]);
        assert a == [a[0]] + a[1..] && b == [b[0]] + b[1..];
      }
      StringIrreflexive(a);
    }
  }

  lemma {:induction false} StringIrreflexive(a: string)
    ensures !StringLess(a, a)
  {
    if a != [] { StringIrreflexive(a[1..]); }
  }

  lemma {:induction false} StringTransitive(a: string, b: string, c: string)
    requires StringLess(a, b) && StringLess(b, c)
    ensures StringLess(a, c)
    decreases |a|
  {
    if a != [] && a[0] == b[0] == c[0] {
      StringTransitive(a[1..], b[1..], c[1..]);
    }
  }

  lemma LessTotal(a: RtpExtension, b: RtpExtension)
    ensures a == b || Less(a, b) || Less(b, a)
    ensures !(Less(a, b) && Less(b, a))
  {
    StringTotal(a.uri, b.uri);
  }

  lemma LessTransitive(a: RtpExtension, b: RtpExtension, c: RtpExtension)
    requires Less(a, b) && Less(b, c)
    ensures Less(a, c)
  {
    if StringLess(a.uri, b.uri) && StringLess(b.uri, c.uri) {
      StringTransitive(a.uri, b.uri, c.uri);
    }
  }

  ghost predicate StrictlySorted(s: seq<RtpExtension>) {
    forall i, j | 0 <= i < j < |s| :: Less(s[i], s[j])
  }

  ghost predicate UniqueUris(s: seq<RtpExtension>) {
    forall i, j | 0 <= i < j < |s| :: s[i].uri != s[j].uri
  }

  /** A strictly sorted list is determined by the set of its members. */
  lemma {:induction false} SortedUnique(a: seq<RtpExtension>, b: seq<RtpExtension>)
    requires StrictlySorted(a) && StrictlySorted(b)
    requires forall e :: e in a <==> e in b
    ensures a == b
  {
    if a == [] {
      if b != [] { HeadIsMember(b); assert false; }
    } else {
      assert a[0] in b;
      assert b[0] in a;
      SameHead(a, b);
      forall e ensures e in a[1..] <==> e in b[1..] {
        LessTotal(a[0], a[0]);
        if e in a[1..] { assert e in b; assert e in [b[0]] + b[1..]; HeadNotInTail(a); }
        if e in b[1..] { assert e in a; assert e in [a[0]] + a[1..]; HeadNotInTail(b); }
      }
      SortedUnique(a[1..], b[1..]);
      assert a == [a[0]] + a[1..] && b == [b[0]] + b[1..];
    }
  }

  lemma HeadNotInTail(a: seq<RtpExtension>)
    requires a != [] && StrictlySorted(a)
    ensures a[0] !in a[1..]
  {
    LessTotal(a[0], a[0]);
    assert forall i | 0 <= i < |a[1..]| :: Less(a[0], a[1..][i]);
  }

  lemma SameHead(a: seq<RtpExtension>, b: seq<RtpExtension>)
    requires StrictlySorted(a) && StrictlySorted(b) && a != [] && b != []
    requires a[0] in b && b[0] in a
    ensures a[0] == b[0]
  {
    var i :| 0 <= i < |b| && b[i] == a[0];
    var j :| 0 <= j < |a| && a[j] == b[0];
    if a[0] != b[0] {
      assert Less(b[0], b[i]) && Less(a[0], a[j]);
      LessTotal(a[0], b[0]);
    }
  }

  // -------------------------------------------------------------- reference

  predicate Matches(e: RtpExtension, uri: string, encrypt: bool) {
    e.uri == uri && e.encrypt == encrypt
  }

  /** `e` is the first entry with this URI and encryption. */
  ghost predicate IsFirst(exts: seq<RtpExtension>, uri: string, encrypt: bool, e: RtpExtension) {
    exists i :: 0 <= i < |exts| && exts[i] == e && Matches(e, uri, encrypt) &&
                forall j | 0 <= j < i :: !Matches(exts[j], uri, encrypt)
  }

  /** `e` is the last entry with this URI and encryption. */
  ghost predicate IsLast(exts: seq<RtpExtension>, uri: string, encrypt: bool, e: RtpExtension) {
    exists i :: 0 <= i < |exts| && exts[i] == e && Matches(e, uri, encrypt) &&
                forall j | i < j < |exts| :: !Matches(exts[j], uri, encrypt)
  }

  predicate HasUri(exts: seq<RtpExtension>, uri: string) {
    exists i :: 0 <= i < |exts| && exts[i].uri == uri
  }

  ghost predicate Has(exts: seq<RtpExtension>, uri: string, encrypt: bool) {
    exists i :: 0 <= i < |exts| && Matches(exts[i], uri, encrypt)
  }

  /** The entry that represents its URI: the first encrypted one where the
      filter admits it, otherwise the first unencrypted one. */
  ghost predicate Represents(exts: seq<RtpExtension>, filter: Filter, e: RtpExtension) {
    if e.encrypt then filter != DiscardEncrypted && IsFirst(exts, e.uri, true, e)
    else filter != RequireEncrypted && IsFirst(exts, e.uri, false, e)
         && (filter == PreferEncrypted ==> !Has(exts, e.uri, true))
  }

  /** The canonical form of a list under a filter. */
  ghost predicate IsCanonical(exts: seq<RtpExtension>, filter: Filter, r: seq<RtpExtension>) {
    StrictlySorted(r) && forall e :: e in r <==> Represents(exts, filter, e)
  }

  lemma RepresentsUnique(exts: seq<RtpExtension>, filter: Filter, e: RtpExtension, f: RtpExtension)
    requires Represents(exts, filter, e) && Represents(exts, filter, f) && e.uri == f.uri
    ensures e == f
  {
  }

  /** The canonical form has one entry per URI, for exactly the URIs with an
      entry that the filter admits. */
  lemma CanonicalUris(exts: seq<RtpExtension>, filter: Filter, r: seq<RtpExtension>, uri: string)
    requires IsCanonical(exts, filter, r)
    ensures UniqueUris(r)
    ensures HasUri(r, uri) <==>
            ((filter != DiscardEncrypted && Has(exts, uri, true)) || (filter != RequireEncrypted && Has(exts, uri, false)))
  {
    forall i, j | 0 <= i < j < |r| ensures r[i].uri != r[j].uri {
      assert r[i] in r && r[j] in r;
      LessTotal(r[i], r[i]);
      if r[i].uri == r[j].uri { RepresentsUnique(exts, filter, r[i], r[j]); }
    }
    if HasUri(r, uri) {
      var i :| 0 <= i < |r| && r[i].uri == uri;
      assert Represents(exts, filter, r[i]);
    }
    if filter != DiscardEncrypted && Has(exts, uri, true) {
      var e := FirstExists(exts, uri, true);
      assert Represents(exts, filter, e);
    } else if filter != RequireEncrypted && Has(exts, uri, false) {
      var e := FirstExists(exts, uri, false);
      assert Represents(exts, filter, e);
    }
  }

  lemma {:induction false} FirstExists(exts: seq<RtpExtension>, uri: string, encrypt: bool) returns (e: RtpExtension)
    requires Has(exts, uri, encrypt)
    ensures IsFirst(exts, uri, encrypt, e)
  {
    if Matches(exts[0], uri, encrypt) {
      e := exts[0];
    } else {
      var i :| 0 <= i < |exts| && Matches(exts[i], uri, encrypt);
      assert exts[1..][i - 1] == exts[i];
      e := FirstExists(exts[1..], uri, encrypt);
      var k :| 0 <= k < |exts[1..]| && exts[1..][k] == e && forall j | 0 <= j < k :: !Matches(exts[1..][j], uri, encrypt);
      forall j | 0 <= j < k + 1 ensures !Matches(exts[j], uri, encrypt) {
        if 0 < j { assert exts[j] == exts[1..][j - 1]; }
      }
      assert exts[k + 1] == e;
    }
  }

  /** Two canonical forms of one list are equal. */
  lemma CanonicalUnique(exts: seq<RtpExtension>, filter: Filter, a: seq<RtpExtension>, b: seq<RtpExtension>)
    requires IsCanonical(exts, filter, a) && IsCanonical(exts, filter, b)
    ensures a == b
  {
    SortedUnique(a, b);
  }

  /** A canonical form is its own canonical form. */
  lemma CanonicalIdempotent(exts: seq<RtpExtension>, filter: Filter, r: seq<RtpExtension>)
    requires IsCanonical(exts, filter, r)
    ensures IsCanonical(r, filter, r)
  {
    CanonicalUris(exts, filter, r, "");
    forall e ensures e in r <==> Represents(r, filter, e) {
      if e in r {
        assert Represents(exts, filter, e);
        var i :| 0 <= i < |r| && r[i] == e;
        assert forall j | 0 <= j < i :: !Matches(r[j], e.uri, e.encrypt);
        assert IsFirst(r, e.uri, e.encrypt, e);
        if Has(r, e.uri, !e.encrypt) {
          var k :| 0 <= k < |r| && Matches(r[k], e.uri, !e.encrypt);
        }
      }
    }
  }

  /** The filter lets entries with this URI and encryption represent the URI. */
  ghost predicate Admitted(exts: seq<RtpExtension>, filter: Filter, e: RtpExtension) {
    if e.encrypt then filter != DiscardEncrypted
    else filter != RequireEncrypted && (filter == PreferEncrypted ==> !Has(exts, e.uri, true))
  }

  /** Admitted entries with the same URI and encryption carry the same id. */
  ghost predicate Unambiguous(exts: seq<RtpExtension>, filter: Filter) {
    forall e, f | e in exts && f in exts && Admitted(exts, filter, e) ::
      e.uri == f.uri && e.encrypt == f.encrypt ==> e == f
  }

  lemma RepresentsByMembers(exts: seq<RtpExtension>, filter: Filter, e: RtpExtension)
    requires Unambiguous(exts, filter)
    ensures Represents(exts, filter, e) <==> e in exts && Admitted(exts, filter, e)
  {
    if e in exts {
      var i :| 0 <= i < |exts| && exts[i] == e;
      assert Matches(exts[i], e.uri, e.encrypt);
      var f := FirstExists(exts, e.uri, e.encrypt);
      assert f in exts;
    }
  }

  lemma SameMembers(exts: seq<RtpExtension>, perm: seq<RtpExtension>, filter: Filter)
    requires multiset(exts) == multiset(perm)
    ensures forall e :: e in exts <==> e in perm
    ensures forall e :: Admitted(exts, filter, e) <==> Admitted(perm, filter, e)
  {
    forall e ensures e in exts <==> e in perm {
      assert e in exts <==> e in multiset(exts);
      assert e in perm <==> e in multiset(perm);
    }
    forall uri ensures Has(exts, uri, true) <==> Has(perm, uri, true) {
      if Has(exts, uri, true) { var f := FirstExists(exts, uri, true); assert f in perm; }
      if Has(perm, uri, true) { var f := FirstExists(perm, uri, true); assert f in exts; }
    }
  }

  /** The canonical form does not depend on the order of an unambiguous list. */
  lemma CanonicalOfPermutation(exts: seq<RtpExtension>, perm: seq<RtpExtension>, filter: Filter,
                               a: seq<RtpExtension>, b: seq<RtpExtension>)
    requires multiset(exts) == multiset(perm) && Unambiguous(exts, filter)
    requires IsCanonical(exts, filter, a) && IsCanonical(perm, filter, b)
    ensures a == b
  {
    SameMembers(exts, perm, filter);
    forall e ensures e in a <==> e in b {
      RepresentsByMembers(exts, filter, e);
      RepresentsByMembers(perm, filter, e);
    }
    SortedUnique(a, b);
  }

  /** And it does depend on the order of every other list: some rearrangement
      has a different canonical form. */
  lemma AmbiguousOrderMatters(exts: seq<RtpExtension>, filter: Filter) returns (perm: seq<RtpExtension>)
    requires !Unambiguous(exts, filter)
    ensures multiset(exts) == multiset(perm)
    ensures forall a, b | IsCanonical(exts, filter, a) && IsCanonical(perm, filter, b) :: a != b
  {
    var e, f :| e in exts && f in exts && Admitted(exts, filter, e) && e.uri == f.uri && e.encrypt == f.encrypt && e != f;
    var i :| 0 <= i < |exts| && exts[i] == e;
    assert Matches(exts[i], e.uri, e.encrypt);
    var first := FirstExists(exts, e.uri, e.encrypt);
    var other := if first == e then f else e;
    perm := MoveToFront(exts, other);
    SameMembers(exts, perm, filter);
    assert IsFirst(perm, e.uri, e.encrypt, other);
    assert Represents(exts, filter, first) && Represents(perm, filter, other);
    forall a, b | IsCanonical(exts, filter, a) && IsCanonical(perm, filter, b) ensures a != b {
      assert first in a && other in b;
      if a == b { RepresentsUnique(exts, filter, first, other); }
    }
  }

  lemma MoveToFront(exts: seq<RtpExtension>, e: RtpExtension) returns (perm: seq<RtpExtension>)
    requires e in exts
    ensures multiset(exts) == multiset(perm) && IsFirst(perm, e.uri, e.encrypt, e)
  {
    var k :| 0 <= k < |exts| && exts[k] == e;
    perm := [e] + (exts[..k] + exts[k + 1..]);
    assert exts == exts[..k] + [e] + exts[k + 1..];
    assert perm[0] == e;
  }

  // ---------------------------------------------------------------- lookups

  method HeaderExtensionWithUriExists(exts: seq<RtpExtension>, uri: string) returns (found: bool)
    ensures found <==> HasUri(exts, uri)
  {
    for i := 0 to |exts|
      invariant forall j | 0 <= j < i :: exts[j].uri != uri
    {
      if exts[i].uri == uri {
        return true;
      }
    }
    found := false;
  }

  method FindHeaderExtensionByUriAndEncryption(exts: seq<RtpExtension>, uri: string, encrypt: bool)
    returns (r: Option<RtpExtension>)
    ensures r.Some? <==> Has(exts, uri, encrypt)
    ensures r.Some? ==> IsFirst(exts, uri, encrypt, r.value)
  {
    for i := 0 to |exts|
      invariant forall j | 0 <= j < i :: !Matches(exts[j], uri, encrypt)
    {
      if exts[i].uri == uri && exts[i].encrypt == encrypt {
        return Some(exts[i]);
      }
    }
    r := None;
  }

  /** What the lookup promises: the first admitted entry, except that the
      fallback of the preferring filter is the LAST unencrypted entry. */
  ghost predicate IsLookup(exts: seq<RtpExtension>, uri: string, filter: Filter, r: Option<RtpExtension>) {
    match filter
    case DiscardEncrypted =>
      if Has(exts, uri, false) then r.Some? && IsFirst(exts, uri, false, r.value) else r.None?
    case RequireEncrypted =>
      if Has(exts, uri, true) then r.Some? && IsFirst(exts, uri, true, r.value) else r.None?
    case PreferEncrypted =>
      if Has(exts, uri, true) then r.Some? && IsFirst(exts, uri, true, r.value)
      else if Has(exts, uri, false) then r.Some? && IsLast(exts, uri, false, r.value)
      else r.None?
  }

  method FindHeaderExtensionByUri(exts: seq<RtpExtension>, uri: string, filter: Filter)
    returns (r: Option<RtpExtension>)
    ensures IsLookup(exts, uri, filter, r)
  {
    var fallback: Option<RtpExtension> := None;
    for i := 0 to |exts|
      invariant filter != DiscardEncrypted ==> forall j | 0 <= j < i :: !Matches(exts[j], uri, true)
      invariant filter == DiscardEncrypted ==> forall j | 0 <= j < i :: !Matches(exts[j], uri, false)
      invariant filter != PreferEncrypted ==> fallback.None?
      invariant filter == PreferEncrypted ==>
                  if fallback.None? then forall j | 0 <= j < i :: !Matches(exts[j], uri, false)
                  else exists k :: 0 <= k < i && exts[k] == fallback.value && Matches(exts[k], uri, false) &&
                                   forall j | k < j < i :: !Matches(exts[j], uri, false)
    {
      var extension := exts[i];
      if extension.uri != uri {
        continue;
      }
      match filter {
        case DiscardEncrypted =>
          if !extension.encrypt {
            return Some(extension);
          }
        case PreferEncrypted =>
          if extension.encrypt {
            return Some(extension);
          } else {
            fallback := Some(extension);
          }
        case RequireEncrypted =>
          if extension.encrypt {
            return Some(extension);
          }
      }
    }
    r := fallback;
  }

  /** The lookup finds an entry exactly when the canonical list has one for the
      URI, with the same encryption; and it finds that very entry exactly when
      no choice between different unencrypted entries had to be made. */
  lemma LookupAgrees(exts: seq<RtpExtension>, uri: string, filter: Filter,
                     canonical: seq<RtpExtension>, r: Option<RtpExtension>)
    requires IsCanonical(exts, filter, canonical) && IsLookup(exts, uri, filter, r)
    ensures r.Some? <==> HasUri(canonical, uri)
    ensures forall e | e in canonical && e.uri == uri :: r.Some? && r.value.uri == uri && r.value.encrypt == e.encrypt
    ensures forall e | e in canonical && e.uri == uri ::
              r == Some(e) <==>
              (filter != PreferEncrypted || Has(exts, uri, true) ||
               forall f, g :: IsFirst(exts, uri, false, f) && IsLast(exts, uri, false, g) ==> f == g)
  {
    CanonicalUris(exts, filter, canonical, uri);
    forall e | e in canonical && e.uri == uri
      ensures r.Some? && r.value.uri == uri && r.value.encrypt == e.encrypt
      ensures r == Some(e) <==>
              (filter != PreferEncrypted || Has(exts, uri, true) ||
               forall f, g :: IsFirst(exts, uri, false, f) && IsLast(exts, uri, false, g) ==> f == g)
    {
      assert Represents(exts, filter, e);
    }
  }

  /** Two unencrypted entries for one URI: the lookup and the canonical list
      pick different ones. */
  lemma LookupDisagrees()
    ensures var exts := [RtpExtension("u", 1, false), RtpExtension("u", 2, false)];
            IsCanonical(exts, PreferEncrypted, [exts[0]]) && IsLookup(exts, "u", PreferEncrypted, Some(exts[1]))
  {
  }

  // --------------------------------------------------------- de-duplication

  /** A list with unique URIs whose members are the representatives so far:
      of the encrypted entries before `i`, then of the unencrypted before `j`. */
  ghost predicate Gathered(exts: seq<RtpExtension>, filter: Filter, i: nat, j: nat, r: seq<RtpExtension>)
    requires i <= |exts| && j <= |exts|
  {
    && UniqueUris(r)
    && forall e :: e in r <==>
         if e.encrypt then filter != DiscardEncrypted && IsFirst(exts[..i], e.uri, true, e)
         else filter != RequireEncrypted && IsFirst(exts[..j], e.uri, false, e) &&
              (filter == PreferEncrypted ==> !Has(exts, e.uri, true))
  }

  lemma FirstOfLonger(exts: seq<RtpExtension>, i: nat, uri: string, encrypt: bool, e: RtpExtension)
    requires i < |exts|
    ensures IsFirst(exts[..i + 1], uri, encrypt, e) <==>
            IsFirst(exts[..i], uri, encrypt, e) ||
            (e == exts[i] && Matches(e, uri, encrypt) && !Has(exts[..i], uri, encrypt))
  {
    var a, x := exts[..i], exts[i];
    assert exts[..i + 1] == a + [x];
    FirstOfAppended(a, x, uri, encrypt, e);
  }

  lemma FirstOfAppended(a: seq<RtpExtension>, x: RtpExtension, uri: string, encrypt: bool, e: RtpExtension)
    ensures IsFirst(a + [x], uri, encrypt, e) <==>
            IsFirst(a, uri, encrypt, e) || (e == x && Matches(e, uri, encrypt) && !Has(a, uri, encrypt))
  {
    var b := a + [x];
    assert b[|a|] == x && forall k | 0 <= k < |a| :: b[k] == a[k];
    if IsFirst(a, uri, encrypt, e) {
      var k :| 0 <= k < |a| && a[k] == e && Matches(e, uri, encrypt) && forall j | 0 <= j < k :: !Matches(a[j], uri, encrypt);
      assert b[k] == e;
    }
  }

  /** Appending an entry whose URI is new keeps the list gathered. */
  lemma GatherEncrypted(exts: seq<RtpExtension>, filter: Filter, i: nat, r: seq<RtpExtension>)
    requires filter != DiscardEncrypted && i < |exts|
    requires Gathered(exts, filter, i, 0, r)
    ensures Gathered(exts, filter, i + 1, 0,
                     if exts[i].encrypt && !HasUri(r, exts[i].uri) then r + [exts[i]] else r)
  {
    var x := exts[i];
    var grow := x.encrypt && !HasUri(r, x.uri);
    var r' := if grow then r + [x] else r;
    assert forall e :: e in r' <==> e in r || (grow && e == x);
    if Has(exts[..i], x.uri, true) { var f := FirstExists(exts[..i], x.uri, true); assert f in r; }
    forall e ensures e in r' <==>
                       if e.encrypt then filter != DiscardEncrypted && IsFirst(exts[..i + 1], e.uri, true, e)
                       else filter != RequireEncrypted && IsFirst(exts[..0], e.uri, false, e) &&
                            (filter == PreferEncrypted ==> !Has(exts, e.uri, true))
    {
      FirstOfLonger(exts, i, e.uri, true, e);
    }
  }

  lemma GatherPlain(exts: seq<RtpExtension>, filter: Filter, j: nat, r: seq<RtpExtension>)
    requires filter != RequireEncrypted && j < |exts|
    requires Gathered(exts, filter, |exts|, j, r)
    ensures Gathered(exts, filter, |exts|, j + 1,
                     if !exts[j].encrypt && !HasUri(r, exts[j].uri) then r + [exts[j]] else r)
  {
    var x := exts[j];
    var grow := !x.encrypt && !HasUri(r, x.uri);
    var r' := if grow then r + [x] else r;
    assert exts[..|exts|] == exts;
    assert forall e :: e in r' <==> e in r || (grow && e == x);
    if Has(exts, x.uri, true) && filter == PreferEncrypted { var f := FirstExists(exts, x.uri, true); assert f in r; }
    if !Has(exts, x.uri, true) || filter == DiscardEncrypted {
      if Has(exts[..j], x.uri, false) { var f := FirstExists(exts[..j], x.uri, false); assert f in r; }
    }
    forall e ensures e in r' <==>
                       if e.encrypt then filter != DiscardEncrypted && IsFirst(exts[..|exts|], e.uri, true, e)
                       else filter != RequireEncrypted && IsFirst(exts[..j + 1], e.uri, false, e) &&
                            (filter == PreferEncrypted ==> !Has(exts, e.uri, true))
    {
      FirstOfLonger(exts, j, e.uri, false, e);
      if grow && e == x && Has(exts, x.uri, true) && filter == PreferEncrypted { assert false; }
    }
  }

  /** Puts `x` after the last member that is not greater. */
  method Insert(r: seq<RtpExtension>, x: RtpExtension) returns (r': seq<RtpExtension>)
    requires StrictlySorted(r)
    requires forall m | 0 <= m < |r| :: r[m].uri != x.uri
    ensures multiset(r') == multiset(r) + multiset{x}
    ensures StrictlySorted(r')
  {
    var k := |r|;
    while 0 < k && Less(x, r[k - 1])
      invariant 0 <= k <= |r|
      invariant forall m | k <= m < |r| :: Less(x, r[m])
    {
      k := k - 1;
    }
    InsertKeepsSorted(r, k, x);
    assert r == r[..k] + r[k..];
    r' := r[..k] + [x] + r[k..];
  }

  lemma InsertKeepsSorted(r: seq<RtpExtension>, k: nat, x: RtpExtension)
    requires StrictlySorted(r) && k <= |r|
    requires forall m | 0 <= m < |r| :: r[m].uri != x.uri
    requires 0 < k ==> !Less(x, r[k - 1])
    requires forall m | k <= m < |r| :: Less(x, r[m])
    ensures StrictlySorted(r[..k] + [x] + r[k..])
  {
    forall m | 0 <= m < k ensures Less(r[m], x) {
      LessTotal(x, r[k - 1]);
      if m < k - 1 { LessTransitive(r[m], r[k - 1], x); }
    }
  }

  /** Sorting by Less; for a list with unique URIs the result is strict. */
  method Sort(s: seq<RtpExtension>) returns (r: seq<RtpExtension>)
    requires UniqueUris(s)
    ensures multiset(r) == multiset(s)
    ensures StrictlySorted(r) && forall i, j | 0 <= i < j < |r| :: Precedes(r[i].uri, r[j].uri)
  {
    r := [];
    for i := 0 to |s|
      invariant multiset(r) == multiset(s[..i])
      invariant StrictlySorted(r)
    {
      forall m | 0 <= m < |r| ensures r[m].uri != s[i].uri {
        assert r[m] in multiset(r);
        assert r[m] in s[..i];
      }
      r := Insert(r, s[i]);
      assert s[..i + 1] == s[..i] + [s[i]];
    }
    assert s[..|s|] == s;
    PermutedUnique(s, r);
    SortedAscending(r);
  }

  /** A strictly sorted rearrangement of a list with unique URIs has them too. */
  lemma PermutedUnique(s: seq<RtpExtension>, r: seq<RtpExtension>)
    requires UniqueUris(s) && multiset(r) == multiset(s) && StrictlySorted(r)
    ensures UniqueUris(r)
  {
    forall i, j | 0 <= i < j < |r| ensures r[i].uri != r[j].uri {
      assert r[i] in multiset(r) && r[j] in multiset(r);
      LessTotal(r[i], r[i]);
    }
  }

  /** One pass: appends, in order, the entries with the given encryption whose
      URI is still missing. */
  function Pass(exts: seq<RtpExtension>, encrypt: bool, start: seq<RtpExtension>): seq<RtpExtension> {
    if exts == [] then start
    else
      var x, r := exts[|exts| - 1], Pass(exts[..|exts| - 1], encrypt, start);
      if x.encrypt == encrypt && !HasUri(r, x.uri) then r + [x] else r
  }

  method AddMissing(exts: seq<RtpExtension>, encrypt: bool, start: seq<RtpExtension>)
    returns (filtered: seq<RtpExtension>)
    ensures filtered == Pass(exts, encrypt, start)
  {
    filtered := start;
    for i := 0 to |exts|
      invariant filtered == Pass(exts[..i], encrypt, start)
    {
      assert exts[..i + 1][..i] == exts[..i];
      if exts[i].encrypt != encrypt {
        continue;
      }
      var known := HeaderExtensionWithUriExists(filtered, exts[i].uri);
      if !known {
        filtered := filtered + [exts[i]];
      }
    }
    assert exts[..|exts|] == exts;
  }

  lemma {:induction false} PassEncrypted(exts: seq<RtpExtension>, filter: Filter, i: nat)
    requires filter != DiscardEncrypted && i <= |exts|
    ensures Gathered(exts, filter, i, 0, Pass(exts[..i], true, []))
  {
    if i != 0 {
      assert exts[..i][..i - 1] == exts[..i - 1];
      PassEncrypted(exts, filter, i - 1);
      GatherEncrypted(exts, filter, i - 1, Pass(exts[..i - 1], true, []));
    }
  }

  lemma {:induction false} PassPlain(exts: seq<RtpExtension>, filter: Filter, j: nat, start: seq<RtpExtension>)
    requires filter != RequireEncrypted && j <= |exts| && Gathered(exts, filter, |exts|, 0, start)
    ensures Gathered(exts, filter, |exts|, j, Pass(exts[..j], false, start))
  {
    if j != 0 {
      assert exts[..j][..j - 1] == exts[..j - 1];
      PassPlain(exts, filter, j - 1, start);
      GatherPlain(exts, filter, j - 1, Pass(exts[..j - 1], false, start));
    }
  }

  lemma GatheredAll(exts: seq<RtpExtension>, filter: Filter, r: seq<RtpExtension>, sorted: seq<RtpExtension>)
    requires Gathered(exts, filter, |exts|, |exts|, r)
    requires multiset(sorted) == multiset(r) && StrictlySorted(sorted)
    ensures IsCanonical(exts, filter, sorted)
  {
    assert exts[..|exts|] == exts;
    assert forall e :: e in sorted <==> e in multiset(sorted);
    assert forall e :: e in r <==> e in multiset(r);
  }

  /** Encrypted entries first, then the missing unencrypted ones, then sorted:
      the result is the canonical form. */
  method DeduplicateHeaderExtensions(exts: seq<RtpExtension>, filter: Filter) returns (r: seq<RtpExtension>)
    ensures IsCanonical(exts, filter, r)
    ensures forall i, j | 0 <= i < j < |r| :: Precedes(r[i].uri, r[j].uri)
  {
    var filtered := [];
    assert exts[..|exts|] == exts;
    if filter != DiscardEncrypted {
      filtered := AddMissing(exts, true, filtered);
      PassEncrypted(exts, filter, |exts|);
    }
    if filter != RequireEncrypted {
      PassPlain(exts, filter, |exts|, filtered);
      filtered := AddMissing(exts, false, filtered);
    }
    r := Sort(filtered);
    GatheredAll(exts, filter, filtered, r);
  }
}
