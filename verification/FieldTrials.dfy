/** Field trial strings: the parser, the grammar it accepts, the deliberately
    non-parsable printer, and the mutable collection of trials. */
module FieldTrials {
  import opened Common

  type Trials = map<string, string>

  datatype Entry = Entry(trial: string, group: string)

  // ---------------------------------------------------------------- grammar

  predicate ValidPart(s: string) { s != "" && '/' !in s }

  predicate ValidEntry(e: Entry) { ValidPart(e.trial) && ValidPart(e.group) }

  predicate ValidEntries(es: seq<Entry>) { forall e | e in es :: ValidEntry(e) }

  predicate ValidTrials(m: Trials) { forall k | k in m :: ValidPart(k) && ValidPart(m[k]) }

  /** The entries written one after the other as `trial/group/`. */
  function Render(es: seq<Entry>): string {
    if es == [] then "" else es[0].trial + "/" + (es[0].group + "/" + Render(es[1..]))
  }

  /** No entry contradicts the map, and no two entries contradict each other. */
  ghost predicate Agree(es: seq<Entry>, m: Trials) {
    && (forall e | e in es :: e.trial in m ==> m[e.trial] == e.group)
    && (forall e, f | e in es && f in es :: e.trial == f.trial ==> e.group == f.group)
  }

  /** `s` spells out entries that may be added to `m`. */
  ghost predicate Spells(es: seq<Entry>, s: string, m: Trials) {
    ValidEntries(es) && s == Render(es) && Agree(es, m)
  }

  /** `r` is `m` plus the entries, and nothing else. */
  ghost predicate IsExtension(r: Trials, m: Trials, es: seq<Entry>) {
    && (forall k :: k in r <==> k in m || exists e :: e in es && e.trial == k)
    && (forall k | k in m :: r[k] == m[k])
    && (forall e | e in es :: r[e.trial] == e.group)
  }

  // ----------------------------------------------------------------- parser

  /** Splits at the first `/`; without one, nothing is taken. */
  function NextPart(s: string): (r: (string, string))
    ensures |r.1| <= |s|
    ensures r.0 != "" ==> |r.1| < |s|
  {
    if '/' !in s then ("", s)
    else if s[0] == '/' then ("", s[1..])
    else var (head, rest) := NextPart(s[1..]); ([s[0]] + head, rest)
  }

  /** The map that parsing `s` into `m` leaves, or None when `s` is rejected. */
  function ParseInto(s: string, m: Trials): Option<Trials>
    decreases |s|
  {
    if s == "" then Some(m)
    else
      var (key, s1) := NextPart(s);
      var (value, s2) := NextPart(s1);
      if key == "" || value == "" then None
      else if key in m && m[key] != value then None
      else ParseInto(s2, m[key := value])
  }

  lemma {:induction false} NextPartSplits(s: string)
    requires '/' in s
    ensures '/' !in NextPart(s).0 && s == NextPart(s).0 + "/" + NextPart(s).1
  {
    if s[0] != '/' {
      assert '/' in s[1..];
      NextPartSplits(s[1..]);
      assert s == [s[0]] + s[1..];
    }
  }

  lemma {:induction false} NextPartOf(part: string, rest: string)
    requires '/' !in part
    ensures NextPart(part + "/" + rest) == (part, rest)
  {
    var s := part + "/" + rest;
    assert s[|part|] == '/';
    if part == "" {
      assert s[1..] == rest;
    } else {
      NextPartOf(part[1..], rest);
      assert s[1..] == part[1..] + "/" + rest;
      assert part == [s[0]] + part[1..];
    }
  }

  lemma AgreeTail(es: seq<Entry>, m: Trials)
    requires es != [] && Agree(es, m)
    ensures Agree(es[1..], m[es[0].trial := es[0].group])
  {
  }

  lemma ExtensionStep(r: Trials, m: Trials, es: seq<Entry>)
    requires es != [] && Agree(es, m)
    requires IsExtension(r, m[es[0].trial := es[0].group], es[1..])
    ensures IsExtension(r, m, es)
  {
  }

  /** Every rendering of agreeing entries is accepted, and adds exactly them. */
  lemma {:induction false} ParseComplete(es: seq<Entry>, m: Trials)
    requires ValidEntries(es) && Agree(es, m)
    ensures ParseInto(Render(es), m).Some?
    ensures IsExtension(ParseInto(Render(es), m).value, m, es)
  {
    if es != [] {
      var e := es[0];
      assert e in es;
      var tail := es[1..];
      NextPartOf(e.trial, e.group + "/" + Render(tail));
      NextPartOf(e.group, Render(tail));
      AgreeTail(es, m);
      ParseComplete(tail, m[e.trial := e.group]);
      ExtensionStep(ParseInto(Render(tail), m[e.trial := e.group]).value, m, es);
    }
  }

  lemma SpellsOneMore(key: string, value: string, rest: string, m: Trials, tail: seq<Entry>)
    requires ValidPart(key) && ValidPart(value) && (key in m ==> m[key] == value)
    requires Spells(tail, rest, m[key := value])
    ensures Spells([Entry(key, value)] + tail, key + "/" + (value + "/" + rest), m)
  {
  }

  /** Every accepted string is the rendering of agreeing entries. */
  lemma {:induction false} ParseSound(s: string, m: Trials) returns (es: seq<Entry>)
    requires ParseInto(s, m).Some?
    ensures Spells(es, s, m)
    decreases |s|
  {
    es := [];
    if s != "" {
      var (key, s1) := NextPart(s);
      var (value, s2) := NextPart(s1);
      NextPartSplits(s);
      NextPartSplits(s1);
      var tail := ParseSound(s2, m[key := value]);
      SpellsOneMore(key, value, s2, m, tail);
      es := [Entry(key, value)] + tail;
      assert s == key + "/" + (value + "/" + s2);
    }
  }

  /** The parser accepts exactly the strings of the grammar that agree with the
      starting map, and then yields the map plus the spelled entries. */
  lemma ParseExact(s: string, m: Trials)
    ensures ParseInto(s, m).Some? <==> exists es :: Spells(es, s, m)
    ensures forall es :: Spells(es, s, m) ==> ParseInto(s, m).Some? && IsExtension(ParseInto(s, m).value, m, es)
  {
    if ParseInto(s, m).Some? {
      var es := ParseSound(s, m);
    }
    forall es | Spells(es, s, m)
      ensures ParseInto(s, m).Some? && IsExtension(ParseInto(s, m).value, m, es)
    {
      ParseComplete(es, m);
    }
  }

  /** Advances the view past the next separator, as far as there is one. */
  method NextKeyOrValue(s: string) returns (result: string, rest: string)
    ensures (result, rest) == NextPart(s)
  {
    var separator := 0;
    while separator < |s| && s[separator] != '/'
      invariant 0 <= separator <= |s|
      invariant '/' !in s[..separator]
    {
      separator := separator + 1;
    }
    if separator == |s| {
      assert s[..separator] == s;
      return "", s;
    }
    result, rest := s[..separator], s[separator + 1..];
    assert s == result + "/" + rest;
    NextPartOf(result, rest);
  }

  /** On failure the entries read before the fault stay in the map. */
  method Parse(s: string, start: Trials) returns (ok: bool, m: Trials)
    ensures ok == ParseInto(s, start).Some?
    ensures ok ==> m == ParseInto(s, start).value
    ensures forall k | k in start :: k in m && m[k] == start[k]
  {
    m := start;
    var view := s;
    while view != ""
      invariant ParseInto(s, start) == ParseInto(view, m)
      invariant forall k | k in start :: k in m && m[k] == start[k]
      decreases |view|
    {
      var key, s1 := NextKeyOrValue(view);
      var value, s2 := NextKeyOrValue(s1);
      if key == "" || value == "" {
        return false, m;
      }
      if key !in m {
        m := m[key := value];
      }
      if m[key] != value {
        return false, m;
      }
      assert m == m[key := value];
      view := s2;
    }
    ok := true;
  }

  // ---------------------------------------------------------------- printer

  /** `es` lists every entry of `m` once, in some order. */
  ghost predicate Enumerates(es: seq<Entry>, m: Trials) {
    && (forall e :: e in es <==> e.trial in m && m[e.trial] == e.group)
    && (forall i, j | 0 <= i < j < |es| :: es[i].trial != es[j].trial)
  }

  /** The human readable form: every entry is followed by two separators. */
  function Stringify(es: seq<Entry>): string {
    if es == [] then "" else es[0].trial + "/" + (es[0].group + "/" + ("/" + Stringify(es[1..])))
  }

  /** Every entry stands in it, between what is written for the entries before
      and after: the trial, one separator, the group and two separators. */
  lemma {:induction false} StringifyAt(es: seq<Entry>, i: nat)
    requires i < |es|
    ensures Stringify(es) == Stringify(es[..i]) + (es[i].trial + "/" + es[i].group + "//" + Stringify(es[i + 1..]))
  {
    if i == 0 {
      assert es[..0] == [];
      assert Stringify(es) == es[0].trial + "/" + es[0].group + "//" + Stringify(es[1..]);
    } else {
      StringifyAt(es[1..], i - 1);
      assert es[1..][i - 1] == es[i] && es[1..][i..] == es[i + 1..] && es[1..][..i - 1] == es[..i][1..];
      var rest := es[i].trial + "/" + es[i].group + "//" + Stringify(es[i + 1..]);
      assert Stringify(es[1..]) == Stringify(es[..i][1..]) + rest;
      assert es[..i][0] == es[0];
    }
  }

  /** A reader can tell the entries from it. */
  lemma {:induction false} StringifyInjective(es: seq<Entry>, fs: seq<Entry>)
    requires ValidEntries(es) && ValidEntries(fs) && Stringify(es) == Stringify(fs)
    ensures es == fs
    decreases |es|
  {
    if es == [] || fs == [] {
      StringifyEmpty(es);
      StringifyEmpty(fs);
    } else {
      var e, f := es[0], fs[0];
      assert e in es && f in fs;
      var r, q := "/" + Stringify(es[1..]), "/" + Stringify(fs[1..]);
      NextPartOf(e.trial, e.group + "/" + r);
      NextPartOf(f.trial, f.group + "/" + q);
      assert e.trial + "/" + (e.group + "/" + r) == Stringify(es);
      assert f.trial + "/" + (f.group + "/" + q) == Stringify(fs);
      NextPartOf(e.group, r);
      NextPartOf(f.group, q);
      assert r[1..] == Stringify(es[1..]) && q[1..] == Stringify(fs[1..]);
      StringifyInjective(es[1..], fs[1..]);
      assert es == [e] + es[1..] && fs == [f] + fs[1..];
    }
  }

  lemma StringifyEmpty(es: seq<Entry>)
    ensures Stringify(es) == "" <==> es == []
  {
  }

  /** Writing a valid map as `trial/group/` in any order parses back to it. */
  lemma RenderRoundTrip(es: seq<Entry>, m: Trials)
    requires ValidTrials(m) && Enumerates(es, m)
    ensures ParseInto(Render(es), map[]) == Some(m)
  {
    ParseComplete(es, map[]);
    var r := ParseInto(Render(es), map[]).value;
    forall k ensures k in r <==> k in m {
      if k in m { assert Entry(k, m[k]) in es; }
    }
    forall k | k in m ensures r[k] == m[k] {
      assert Entry(k, m[k]) in es;
    }
    assert r == m;
  }

  /** The human readable form of a non-empty collection is never a field trial
      string, whatever the parser starts from. */
  lemma StringifyRejected(es: seq<Entry>, start: Trials)
    requires ValidEntries(es) && es != []
    ensures ParseInto(Stringify(es), start).None?
  {
    var e := es[0];
    assert e in es;
    var rest := "/" + Stringify(es[1..]);
    NextPartOf(e.trial, e.group + "/" + rest);
    NextPartOf(e.group, rest);
    assert Stringify(es) == e.trial + "/" + (e.group + "/" + rest);
    assert rest[0] == '/';
    assert '/' in rest;
    assert NextPart(rest).0 == "";
  }

  // ------------------------------------------------------------- collection

  class FieldTrials {
    var keyValueMap: Trials

    constructor (m: Trials)
      ensures keyValueMap == m
    {
      keyValueMap := m;
    }

    /** Null exactly for the strings the grammar refuses. */
    static method Create(s: string) returns (r: FieldTrials?)
      ensures r == null <==> ParseInto(s, map[]).None?
      ensures r != null ==> fresh(r) && ParseInto(s, map[]) == Some(r.keyValueMap)
    {
      var ok, m := Parse(s, map[]);
      if !ok {
        return null;
      }
      r := new FieldTrials(m);
    }

    /** Inserts or overwrites trial by trial; `other` may be this object. */
    method Merge(other: FieldTrials)
      modifies this
      ensures keyValueMap == old(keyValueMap + other.keyValueMap)
    {
      var source := other.keyValueMap;
      var todo := source.Keys;
      while todo != {}
        invariant todo <= source.Keys
        invariant keyValueMap == old(keyValueMap) + (source - todo)
      {
        var trial :| trial in todo;
        keyValueMap := keyValueMap[trial := source[trial]];
        todo := todo - {trial};
      }
      assert source - {} == source;
    }

    /** Fails its checks, changing nothing, for a trial or group that could not
        have been parsed; an empty group removes the trial. */
    method Set(trial: string, group: string) returns (completed: bool)
      modifies this
      ensures completed <==> SetTrial(old(keyValueMap), trial, group).Some?
      ensures keyValueMap == if completed then SetTrial(old(keyValueMap), trial, group).value else old(keyValueMap)
    {
      if trial == "" || '/' in trial || '/' in group {
        return false;
      }
      if group == "" {
        keyValueMap := keyValueMap - {trial};
      } else {
        keyValueMap := keyValueMap[trial := group];
      }
      completed := true;
    }

    method GetValue(key: string) returns (value: string)
      ensures value == Lookup(keyValueMap, key)
      ensures value == if key in keyValueMap then keyValueMap[key] else ""
    {
      if key in keyValueMap {
        return keyValueMap[key];
      }
      value := "";
    }

    /** Appends every trial in the order in which the container holds them. */
    method AbslStringify(order: seq<Entry>) returns (sink: string)
      requires Enumerates(order, keyValueMap)
      ensures sink == Stringify(order)
      ensures ValidTrials(keyValueMap) && keyValueMap != map[] ==> ParseInto(sink, map[]).None?
    {
      sink := "";
      for i := 0 to |order|
        invariant sink + Stringify(order[i..]) == Stringify(order)
      {
        var e := order[i];
        ghost var tail := Stringify(order[i + 1..]);
        assert order[i..][1..] == order[i + 1..];
        assert Stringify(order[i..]) == e.trial + "/" + e.group + "//" + tail;
        sink := sink + (e.trial + "/" + e.group + "//");
      }
      if ValidTrials(keyValueMap) && keyValueMap != map[] {
        var k :| k in keyValueMap;
        assert Entry(k, keyValueMap[k]) in order;
        StringifyRejected(order, map[]);
      }
    }
  }

  function SetTrial(m: Trials, trial: string, group: string): Option<Trials> {
    if trial == "" || '/' in trial || '/' in group then None
    else if group == "" then Some(m - {trial})
    else Some(m[trial := group])
  }

  function Lookup(m: Trials, trial: string): string {
    if trial in m then m[trial] else ""
  }

  /** How a collection came about: parsed, merged from two others, or updated. */
  datatype History =
    | Created(s: string)
    | Merged(base: History, other: History)
    | Updated(base: History, trial: string, group: string)

  /** The collection a history ends in, or None if some check failed on the way. */
  function Build(h: History): Option<Trials> {
    match h
    case Created(s) => ParseInto(s, map[])
    case Merged(base, other) =>
      var a, b := Build(base), Build(other);
      if a.None? || b.None? then None else Some(a.value + b.value)
    case Updated(base, trial, group) =>
      var a := Build(base);
      if a.None? then None else SetTrial(a.value, trial, group)
  }

  /** Every collection that can be built holds only parts that could have been
      parsed, so an empty lookup means exactly that the trial is absent. */
  lemma {:induction false} BuildValid(h: History)
    requires Build(h).Some?
    ensures ValidTrials(Build(h).value)
    ensures forall k :: Lookup(Build(h).value, k) == "" <==> k !in Build(h).value
  {
    match h
    case Created(s) =>
      var es := ParseSound(s, map[]);
      ParseComplete(es, map[]);
    case Merged(base, other) =>
      BuildValid(base);
      BuildValid(other);
    case Updated(base, trial, group) =>
      BuildValid(base);
  }

  /** Setting a trial fails exactly for an empty trial or a separator in either
      part. Otherwise that trial, and no other, has the new group, and is gone if
      that is empty. */
  lemma SetExact(h: History, trial: string, group: string, other: string)
    requires Build(h).Some?
    ensures var before, after := Build(h).value, Build(Updated(h, trial, group));
            && (after.Some? <==> trial != "" && '/' !in trial && '/' !in group)
            && (after.Some? ==>
                  && Lookup(after.value, trial) == group
                  && (trial in after.value <==> group != "")
                  && (other != trial ==>
                        && (other in after.value <==> other in before)
                        && (other in before ==> after.value[other] == before[other])))
  {
  }

  /** Merging is associative, the other side wins, and a trial that the other
      side lacks - even because it was set to an empty group - is never erased. */
  lemma MergeLaws(a: History, b: History, c: History, trial: string)
    requires Build(a).Some? && Build(b).Some? && Build(c).Some?
    ensures Build(Merged(Merged(a, b), c)) == Build(Merged(a, Merged(b, c)))
    ensures Lookup(Build(Merged(a, b)).value, trial) ==
            if Lookup(Build(b).value, trial) != "" then Lookup(Build(b).value, trial) else Lookup(Build(a).value, trial)
    ensures ValidPart(trial) ==> Build(Merged(a, Updated(b, trial, ""))).Some?
    ensures ValidPart(trial) ==>
            Lookup(Build(Merged(a, Updated(b, trial, ""))).value, trial) == Lookup(Build(a).value, trial)
  {
    BuildValid(b);
    MergeAssociates(Build(a).value, Build(b).value, Build(c).value);
  }

  lemma MergeAssociates(x: Trials, y: Trials, z: Trials)
    ensures (x + y) + z == x + (y + z)
  {
  }

  /** Every collection that can be built is printed to a parsable string by
      `trial/group/` and, unless empty, to a non-parsable one by Stringify. */
  lemma BuildPrinting(h: History, es: seq<Entry>)
    requires Build(h).Some? && Enumerates(es, Build(h).value)
    ensures Build(Created(Render(es))) == Build(h)
    ensures Build(Created(Stringify(es))).None? <==> Build(h).value != map[]
  {
    BuildValid(h);
    RenderRoundTrip(es, Build(h).value);
    if es != [] {
      assert es[0] in es;
      StringifyRejected(es, map[]);
    }
  }
}
