/**
The DNS step of a domain's setup: `CloudflareDNS.upsert_records` with `_same`
(providers/cloudflare.py), and `_fqdn` (domains.py). `UpsertAll` is what one pass does
to a zone; `DnsZone` is the code, which changes the zone record by record.
*/
module Dns {
  import opened Wrappers

  datatype Record = Record(kind: string, name: string, value: string, priority: Option<int>)

  /** One entry of a zone; its id is its index. */
  datatype Entry = Entry(kind: string, name: string, content: string, priority: Option<int>)

  type Zone = seq<Entry>

  // ------------------------------------------------------------------ text

  /** value.replace('" "', "") */
  function JoinParts(s: string): string {
    if |s| < 3 then s
    else if s[..3] == "\" \"" then JoinParts(s[3..])
    else [s[0]] + JoinParts(s[1..])
  }

  function LeftStrip(s: string, c: char): string {
    if s != "" && s[0] == c then LeftStrip(s[1..], c) else s
  }

  function RightStrip(s: string, c: char): (r: string)
    ensures r <= s && (r != "" ==> r[|r| - 1] != c)
    ensures (s != "" && s[|s| - 1] != c) ==> r == s
  {
    if s != "" && s[|s| - 1] == c then RightStrip(s[..|s| - 1], c) else s
  }

  function LowerChar(c: char): char {
    if 'A' <= c <= 'Z' then "abcdefghijklmnopqrstuvwxyz"[c as int - 'A' as int] else c
  }

  function Lower(s: string): (r: string)
    ensures |r| == |s| && forall i :: 0 <= i < |s| ==> r[i] == LowerChar(s[i])
  {
    seq(|s|, i requires 0 <= i < |s| => if 'A' <= s[i] <= 'Z' then (s[i] as int + 32) as char else s[i])
  }

  /** What _same compares: no quotes around or between the parts, no final dots, lower case. */
  function Norm(s: string): string {
    Lower(RightStrip(RightStrip(LeftStrip(JoinParts(s), '"'), '"'), '.'))
  }

  predicate Same(current: string, wanted: string) {
    Norm(current) == Norm(wanted)
  }

  predicate Contains(s: string, part: string) {
    |part| <= |s| && (s[..|part|] == part || (s != "" && Contains(s[1..], part)))
  }

  function FirstLabel(name: string): string {
    if name == "" || name[0] == '.' then "" else [name[0]] + FirstLabel(name[1..])
  }

  // ------------------------------------------------------------------ one pass

  predicate Singleton(r: Record) {
    r.kind == "CNAME" || FirstLabel(r.name) == "_dmarc" || Contains(r.name, "._domainkey")
  }

  predicate At(e: Entry, r: Record) {
    e.kind == r.kind && e.name == r.name
  }

  predicate Present(z: Zone, r: Record) {
    exists i :: 0 <= i < |z| && At(z[i], r) && Same(z[i].content, r.value)
  }

  /** The first entry of a record's type and name. */
  function First(z: Zone, r: Record): (found: Option<nat>)
    ensures found.Some? ==> found.value < |z| && At(z[found.value], r)
    ensures found.None? ==> forall i :: 0 <= i < |z| ==> !At(z[i], r)
  {
    if z == [] then None
    else if At(z[0], r) then Some(0)
    else match First(z[1..], r) case None => None case Some(i) => Some(i + 1)
  }

  function EntryOf(r: Record): Entry {
    Entry(r.kind, r.name, r.value, r.priority)
  }

  function Upsert(z: Zone, r: Record): Zone {
    if Present(z, r) then z
    else if First(z, r).Some? && Singleton(r) then z[First(z, r).value := EntryOf(r)]
    else z + [EntryOf(r)]
  }

  function UpsertAll(z: Zone, records: seq<Record>): Zone {
    if records == [] then z else Upsert(UpsertAll(z, records[..|records| - 1]), records[|records| - 1])
  }

  /** Two records that want different values under one name that holds a single value. */
  predicate Conflict(a: Record, b: Record) {
    a.kind == b.kind && a.name == b.name && Singleton(a) && !Same(a.value, b.value)
  }

  predicate NoConflict(records: seq<Record>) {
    forall i, j :: 0 <= i < |records| && 0 <= j < |records| ==> !Conflict(records[i], records[j])
  }

  predicate AllPresent(z: Zone, records: seq<Record>) {
    forall i :: 0 <= i < |records| ==> Present(z, records[i])
  }

  lemma {:induction false} UpsertAdds(z: Zone, r: Record)
    ensures Present(Upsert(z, r), r)
  {
    if !Present(z, r) {
      var i := if First(z, r).Some? && Singleton(r) then First(z, r).value else |z|;
      assert Upsert(z, r)[i] == EntryOf(r);
    }
  }

  /** What was present stays, unless it conflicts with the new record. */
  lemma {:induction false} UpsertKeeps(z: Zone, r: Record, old': Record)
    requires Present(z, old') && !Conflict(r, old')
    ensures Present(Upsert(z, r), old')
  {
    var u := Upsert(z, r);
    var i :| 0 <= i < |z| && At(z[i], old') && Same(z[i].content, old'.value);
    if At(z[i], r) && Singleton(r) { assert Present(z, r); }
    assert u[i] == z[i];
  }

  lemma {:induction false} PassMakesPresent(z: Zone, records: seq<Record>)
    requires NoConflict(records)
    ensures AllPresent(UpsertAll(z, records), records)
  {
    hide Upsert, Conflict, Present;
    if records != [] {
      var fewer, last := records[..|records| - 1], records[|records| - 1];
      forall i, j | 0 <= i < |fewer| && 0 <= j < |fewer| ensures !Conflict(fewer[i], fewer[j]) {
        assert !Conflict(records[i], records[j]);
      }
      PassMakesPresent(z, fewer);
      UpsertAdds(UpsertAll(z, fewer), last);
      forall i | 0 <= i < |fewer| ensures Present(UpsertAll(z, records), records[i]) {
        assert Present(UpsertAll(z, fewer), fewer[i]);
        assert !Conflict(records[|records| - 1], records[i]);
        UpsertKeeps(UpsertAll(z, fewer), last, fewer[i]);
      }
    }
  }

  /** A zone where a single-value name holds one value. */
  predicate OneValue(z: Zone, r: Record) {
    forall i, j :: 0 <= i < |z| && 0 <= j < |z| && At(z[i], r) && At(z[j], r) ==> i == j
  }

  lemma {:induction false} OneValueStays(records: seq<Record>, r: Record)
    requires Singleton(r)
    ensures OneValue(UpsertAll([], records), r)
  {
    if records != [] {
      OneValueStays(records[..|records| - 1], r);
      var z, last := UpsertAll([], records[..|records| - 1]), records[|records| - 1];
      assert First(z, last).None? ==> forall i :: 0 <= i < |z| ==> !At(z[i], last);
    }
  }

  /** Whatever the zone holds, one pass leaves every wanted record present. */
  ghost predicate AlwaysPresent(records: seq<Record>) {
    forall z: Zone :: AllPresent(UpsertAll(z, records), records)
  }

  /** Every wanted record is present after one pass over any zone exactly when no two of them conflict. */
  lemma {:induction false} AlwaysPresentIff(records: seq<Record>)
    ensures AlwaysPresent(records) <==> NoConflict(records)
  {
    if NoConflict(records) {
      forall z: Zone ensures AllPresent(UpsertAll(z, records), records) { PassMakesPresent(z, records); }
    } else {
      var i, j :| 0 <= i < |records| && 0 <= j < |records| && Conflict(records[i], records[j]);
      var none: Zone := [];
      OneValueStays(records, records[i]);
      NotBothPresent(UpsertAll(none, records), records[i], records[j]);
      assert !AllPresent(UpsertAll(none, records), records);
    }
  }

  lemma {:induction false} NotBothPresent(z: Zone, a: Record, b: Record)
    requires Conflict(a, b) && OneValue(z, a)
    ensures !(Present(z, a) && Present(z, b))
  {
    if Present(z, a) {
      var i :| 0 <= i < |z| && At(z[i], a) && Same(z[i].content, a.value);
      forall j | 0 <= j < |z| && At(z[j], b) ensures !Same(z[j].content, b.value) { assert i == j; }
    }
  }

  lemma {:induction false} PresentChangesNothing(z: Zone, records: seq<Record>)
    requires AllPresent(z, records)
    ensures UpsertAll(z, records) == z
  {
    if records != [] {
      var fewer := records[..|records| - 1];
      forall i | 0 <= i < |fewer| ensures Present(z, fewer[i]) { assert Present(z, records[i]); }
      PresentChangesNothing(z, fewer);
      assert Present(z, records[|records| - 1]);
    }
  }

  lemma {:induction false} PassAppend(z: Zone, a: seq<Record>, b: seq<Record>)
    ensures UpsertAll(z, a + b) == UpsertAll(UpsertAll(z, a), b)
  {
    if b == [] { assert a + b == a; }
    else {
      assert (a + b)[..|a + b| - 1] == a + b[..|b| - 1];
      PassAppend(z, a, b[..|b| - 1]);
    }
  }

  /**
  A pass that stopped after any number of records is completed by the next one, as if it had never stopped; a further
  pass changes nothing.
  */
  lemma {:induction false} RerunCompletes(z: Zone, records: seq<Record>, k: nat)
    requires NoConflict(records) && k <= |records|
    ensures UpsertAll(UpsertAll(z, records[..k]), records) == UpsertAll(z, records)
    ensures UpsertAll(UpsertAll(z, records), records) == UpsertAll(z, records)
  {
    var done := records[..k];
    forall i, j | 0 <= i < |done| && 0 <= j < |done|
      ensures !Conflict(done[i], done[j])
    {
      assert !Conflict(records[i], records[j]);
    }
    PassMakesPresent(z, done);
    PresentChangesNothing(UpsertAll(z, done), done);
    assert done + records[k..] == records;
    PassAppend(UpsertAll(z, done), done, records[k..]);
    PassAppend(z, done, records[k..]);
    PassMakesPresent(z, records);
    PresentChangesNothing(UpsertAll(z, records), records);
  }

  lemma {:induction false} TwoRecords(z: Zone, a: Record, b: Record)
    ensures UpsertAll(z, [a]) == Upsert(z, a) && UpsertAll(z, [a, b]) == Upsert(Upsert(z, a), b)
  {
    assert [a, b][..1] == [a] && [a][..0] == [];
    assert UpsertAll(z, []) == z;
  }

  /** Two conflicting records replace each other at every pass: the zone never settles. */
  lemma {:induction false} ConflictsNeverSettle(a: Record, b: Record)
    requires Conflict(a, b)
    ensures UpsertAll([], [a, b]) == [EntryOf(b)]
    ensures UpsertAll([EntryOf(b)], [a]) == [EntryOf(a)] && UpsertAll([EntryOf(b)], [a, b]) == [EntryOf(b)]
  {
    assert !Present([], a) && Upsert([], a) == [EntryOf(a)];
    assert !Present([EntryOf(a)], b) && Singleton(b) && Upsert([EntryOf(a)], b) == [EntryOf(b)];
    assert !Present([EntryOf(b)], a) && Upsert([EntryOf(b)], a) == [EntryOf(a)];
    TwoRecords([], a, b);
    TwoRecords([EntryOf(b)], a, b);
  }

  /** Entries under other names are not touched, and no entry is removed. */
  lemma {:induction false} OtherNamesStay(z: Zone, records: seq<Record>, i: nat)
    requires i < |z| && forall k :: 0 <= k < |records| ==> !At(z[i], records[k])
    ensures |z| <= |UpsertAll(z, records)| && UpsertAll(z, records)[i] == z[i]
  {
    if records != [] {
      var fewer := records[..|records| - 1];
      forall k | 0 <= k < |fewer| ensures !At(z[i], fewer[k]) { assert !At(z[i], records[k]); }
      OtherNamesStay(z, fewer, i);
      assert !At(z[i], records[|records| - 1]);
    }
  }

  // ------------------------------------------------------------------ which names hold one value

  predicate StartsAt(part: string, s: string, i: nat) {
    i + |part| <= |s| && s[i..i + |part|] == part
  }

  predicate Occurs(part: string, s: string) {
    exists i :: 0 <= i <= |s| && StartsAt(part, s, i)
  }

  /** A CNAME, a DMARC name or a DKIM name. */
  predicate HoldsOne(kind: string, name: string) {
    kind == "CNAME" || name == "_dmarc" || "_dmarc." <= name || Occurs("._domainkey", name)
  }

  lemma {:induction false} ContainsIff(s: string, part: string)
    ensures Contains(s, part) <==> Occurs(part, s)
  {
    if |part| <= |s| && s[..|part|] == part {
      assert StartsAt(part, s, 0);
    } else if s != "" {
      ContainsIff(s[1..], part);
      forall i | 0 <= i <= |s[1..]| && StartsAt(part, s[1..], i) ensures StartsAt(part, s, i + 1) {
        assert s[1..][i..i + |part|] == s[i + 1..i + 1 + |part|];
      }
      forall i | 0 <= i <= |s| && StartsAt(part, s, i) ensures i > 0 && StartsAt(part, s[1..], i - 1) {
        if i > 0 { assert s[1..][i - 1..i - 1 + |part|] == s[i..i + |part|]; }
      }
    }
  }

  lemma {:induction false} FirstLabelIff(name: string, wanted: string)
    requires '.' !in wanted
    ensures FirstLabel(name) == wanted <==> name == wanted || wanted + "." <= name
  {
    if wanted == "" {
      assert "" + "." == ".";
    } else if name != "" && name[0] != '.' {
      FirstLabelIff(name[1..], wanted[1..]);
      assert name == [name[0]] + name[1..] && wanted == [wanted[0]] + wanted[1..];
      assert wanted + "." == [wanted[0]] + (wanted[1..] + ".");
    }
  }

  lemma {:induction false} SingletonIff(r: Record)
    ensures Singleton(r) <==> HoldsOne(r.kind, r.name)
  {
    FirstLabelIff(r.name, "_dmarc");
    ContainsIff(r.name, "._domainkey");
  }

  /** The entries of one type and name. */
  function Held(z: Zone, kind: string, name: string): set<nat> {
    set i | 0 <= i < |z| && z[i].kind == kind && z[i].name == name
  }

  /** A pass adds no second entry to a name that holds one value. */
  lemma {:induction false} OneStaysOne(z: Zone, records: seq<Record>, kind: string, name: string)
    requires HoldsOne(kind, name)
    ensures var before, after := Held(z, kind, name), Held(UpsertAll(z, records), kind, name);
      if before == {} then |after| <= 1 else after == before
  {
    if records != [] {
      var fewer, r := records[..|records| - 1], records[|records| - 1];
      OneStaysOne(z, fewer, kind, name);
      var u := UpsertAll(z, fewer);
      SingletonIff(r);
      assert Upsert(u, r) == UpsertAll(z, records);
      hide UpsertAll, HoldsOne, Singleton, Same;
      UpsertHolds(u, r, kind, name);
    }
  }

  lemma {:induction false} UpsertHolds(u: Zone, r: Record, kind: string, name: string)
    requires r.kind == kind && r.name == name ==> Singleton(r)
    ensures var before, after := Held(u, kind, name), Held(Upsert(u, r), kind, name);
      if before == {} then |after| <= 1 else after == before
  {
    hide Singleton, Same;
    var before, after := Held(u, kind, name), Held(Upsert(u, r), kind, name);
    if r.kind == kind && r.name == name {
      forall i | 0 <= i < |u| ensures At(u[i], r) <==> i in before { }
      if before == {} {
        assert First(u, r).None?;
        assert after <= {|u|};
        if |u| in after { assert after == {|u|}; } else { assert after == {}; }
      } else {
        var i :| i in before;
        assert |Upsert(u, r)| == |u|;
        forall j | 0 <= j < |u| ensures j in after <==> j in before { }
      }
    } else {
      forall j | 0 <= j < |u| ensures j in after <==> j in before { }
    }
  }

  /** Any other entry stays: what differs is added next to it. */
  lemma {:induction false} OthersStay(z: Zone, records: seq<Record>, i: nat)
    requires i < |z| && !HoldsOne(z[i].kind, z[i].name)
    ensures |z| <= |UpsertAll(z, records)| && UpsertAll(z, records)[i] == z[i]
  {
    if records != [] {
      OthersStay(z, records[..|records| - 1], i);
      SingletonIff(records[|records| - 1]);
    }
  }

  predicate Written(r: Record, e: Entry) {
    e.kind == r.kind && e.name == r.name && e.content == r.value && e.priority == r.priority
  }

  /** A pass writes wanted records and nothing else: type, name, value and priority as wanted. */
  lemma {:induction false} OnlyRecordsAreWritten(z: Zone, records: seq<Record>, i: nat)
    requires i < |UpsertAll(z, records)| && (i < |z| ==> UpsertAll(z, records)[i] != z[i])
    ensures exists k :: 0 <= k < |records| && Written(records[k], UpsertAll(z, records)[i])
  {
    if records != [] {
      var fewer := records[..|records| - 1];
      var u := UpsertAll(z, fewer);
      if i < |u| && u[i] == UpsertAll(z, records)[i] {
        OnlyRecordsAreWritten(z, fewer, i);
        var k :| 0 <= k < |fewer| && Written(fewer[k], u[i]);
        assert records[k] == fewer[k];
      } else {
        assert Written(records[|records| - 1], UpsertAll(z, records)[i]);
      }
    }
  }

  // ------------------------------------------------------------------ which values are the same

  predicate QuoteFree(s: string) {
    forall i :: 0 <= i < |s| ==> s[i] != '"'
  }

  /** The same but for upper and lower case. */
  predicate SameLetters(a: string, b: string) {
    |a| == |b| && forall i :: 0 <= i < |a| ==> LowerChar(a[i]) == LowerChar(b[i])
  }

  lemma {:induction false} LowerIff(a: string, b: string)
    ensures Lower(a) == Lower(b) <==> SameLetters(a, b)
  {
    hide Lower, LowerChar;
    if Lower(a) == Lower(b) {
      assert |a| == |Lower(a)| == |Lower(b)| == |b|;
      forall i | 0 <= i < |a| ensures LowerChar(a[i]) == LowerChar(b[i]) { assert Lower(a)[i] == Lower(b)[i]; }
    }
    if SameLetters(a, b) {
      forall i | 0 <= i < |a| ensures Lower(a)[i] == Lower(b)[i] { assert LowerChar(a[i]) == LowerChar(b[i]); }
    }
  }

  lemma {:induction false} BreakDropped(rest: string)
    ensures JoinParts("\" \"" + rest) == JoinParts(rest)
  {
    var s := "\" \"" + rest;
    assert s[..3] == "\" \"" && s[3..] == rest;
  }

  /** Text without quotes up to a break between two parts is kept, and the break is dropped. */
  lemma {:induction false} JoinBreak(s: string, rest: string)
    requires QuoteFree(s)
    ensures JoinParts(s + "\" \"" + rest) == s + JoinParts(rest)
  {
    if s == "" {
      BreakDropped(rest);
      hide JoinParts;
      assert s + "\" \"" + rest == "\" \"" + rest && s + JoinParts(rest) == JoinParts(rest);
    } else {
      JoinBreak(s[1..], rest);
      OneKept(s[0], s[1..] + "\" \"" + rest);
      hide JoinParts;
      assert s + "\" \"" + rest == [s[0]] + (s[1..] + "\" \"" + rest);
      assert [s[0]] + (s[1..] + JoinParts(rest)) == s + JoinParts(rest);
    }
  }

  /** Text without quotes is kept, also before a last quote. */
  lemma {:induction false} JoinKeeps(s: string, last: string)
    requires QuoteFree(s) && (last == "" || last == "\"")
    ensures JoinParts(s + last) == s + last
  {
    if s == "" {
      assert s + last == last;
    } else {
      JoinKeeps(s[1..], last);
      OneKept(s[0], s[1..] + last);
      hide JoinParts;
      assert s + last == [s[0]] + (s[1..] + last);
    }
  }

  lemma {:induction false} OneKept(c: char, s: string)
    requires c != '"' || |s| < 2 || s[0] != ' ' || s[1] != '"'
    ensures JoinParts([c] + s) == [c] + JoinParts(s)
  {
    var t := [c] + s;
    assert t[1..] == s;
    if |t| >= 3 {
      assert t[..3] == [t[0], t[1], t[2]];
    } else if |s| > 0 {
      assert JoinParts(s) == s;
    }
  }

  /** The value in quoted parts, as a zone shows a long TXT value. */
  function Quoted(parts: seq<string>): string
    requires parts != []
  {
    if |parts| == 1 then parts[0] + "\"" else parts[0] + "\" \"" + Quoted(parts[1..])
  }

  function Concat(parts: seq<string>): string {
    if parts == [] then "" else parts[0] + Concat(parts[1..])
  }

  lemma {:induction false} PartsJoin(parts: seq<string>)
    requires parts != [] && forall k :: 0 <= k < |parts| ==> QuoteFree(parts[k])
    ensures JoinParts(Quoted(parts)) == Concat(parts) + "\"" && QuoteFree(Concat(parts))
  {
    if |parts| == 1 {
      JoinKeeps(parts[0], "\"");
      assert Concat(parts) == parts[0] + "";
    } else {
      PartsJoin(parts[1..]);
      JoinBreak(parts[0], Quoted(parts[1..]));
      assert parts[0] + (Concat(parts[1..]) + "\"") == Concat(parts) + "\"";
    }
  }

  /** Quotes around a text are dropped. */
  lemma {:induction false} StripQuotes(s: string)
    requires QuoteFree(s)
    ensures RightStrip(LeftStrip("\"" + s + "\"", '"'), '"') == s && RightStrip(LeftStrip(s, '"'), '"') == s
  {
    if s == "" {
      assert "\"" + s + "\"" == "\"\"" && "\"\""[1..] == "\"";
      assert "\""[1..] == "";
    } else {
      assert ("\"" + s + "\"")[1..] == s + "\"" && (s + "\"")[0] == s[0];
      assert (s + "\"")[..|s|] == s;
    }
  }

  /** A value split into quoted parts is the same as the value. */
  lemma {:induction false} QuotedIsSame(parts: seq<string>)
    requires parts != [] && (forall k :: 0 <= k < |parts| ==> QuoteFree(parts[k])) && parts[0] != " "
    ensures Same("\"" + Quoted(parts), Concat(parts))
  {
    PartsJoin(parts);
    JoinKeeps(Concat(parts), "");
    assert Concat(parts) + "" == Concat(parts);
    var q := Quoted(parts);
    assert |parts[0]| >= 2 ==> q[1] == parts[0][1];
    assert |parts[0]| >= 1 ==> q[0] == parts[0][0];
    assert |parts[0]| == 1 ==> parts[0] == [parts[0][0]];
    assert parts[0] == "" ==> q[0] == '"';
    OneKept('"', q);
    assert "\"" + (Concat(parts) + "\"") == "\"" + Concat(parts) + "\"";
    StripQuotes(Concat(parts));
  }

  /** Without quotes two values are the same exactly when they agree but for case and final dots. */
  lemma {:induction false} SameIff(a: string, b: string)
    requires QuoteFree(a) && QuoteFree(b)
    ensures Same(a, b) <==> SameLetters(RightStrip(a, '.'), RightStrip(b, '.'))
  {
    JoinKeeps(a, "");
    JoinKeeps(b, "");
    assert a + "" == a && b + "" == b;
    StripQuotes(a);
    StripQuotes(b);
    LowerIff(RightStrip(a, '.'), RightStrip(b, '.'));
  }

  // ------------------------------------------------------------------ names

  predicate EndsWith(s: string, tail: string) {
    |tail| <= |s| && s[|s| - |tail|..] == tail
  }

  /** The name of _fqdn: relative names get the zone appended. */
  function Fqdn(name: string, zone: string): string {
    var n := RightStrip(name, '.');
    if n == "" || n == "@" then zone
    else if n != zone && !EndsWith(n, "." + zone) then n + "." + zone
    else n
  }

  predicate DotAtEnd(zone: string) {
    zone != "" && zone[|zone| - 1] == '.' && RightStrip(zone, '.') != ""
  }

  lemma {:induction false} StripAppended(a: string, b: string)
    requires RightStrip(b, '.') != ""
    ensures RightStrip(a + b, '.') == a + RightStrip(b, '.')
  {
    if b[|b| - 1] == '.' {
      assert (a + b)[..|a + b| - 1] == a + b[..|b| - 1];
      StripAppended(a, b[..|b| - 1]);
    }
  }

  lemma {:induction false} StripOnlyDots(a: string, b: string)
    requires RightStrip(b, '.') == ""
    ensures RightStrip(a + b, '.') == RightStrip(a, '.')
  {
    if b == "" { assert a + b == a; }
    else {
      assert (a + b)[..|a + b| - 1] == a + b[..|b| - 1];
      StripOnlyDots(a, b[..|b| - 1]);
    }
  }

  /**
  Making a name absolute twice is making it absolute once, for every name, unless the zone is written with a final
  dot.
  */
  lemma {:induction false} FqdnTwiceIff(zone: string)
    ensures (forall name :: Fqdn(Fqdn(name, zone), zone) == Fqdn(name, zone)) <==> !DotAtEnd(zone)
  {
    hide Fqdn;
    if DotAtEnd(zone) {
      DottedGrows(zone);
    } else {
      forall name ensures Fqdn(Fqdn(name, zone), zone) == Fqdn(name, zone) { FqdnTwice(name, zone); }
    }
  }

  /** The name is the zone, or inside it; a name inside stays, and any other is put under the zone. */
  lemma {:induction false} FqdnIsInside(name: string, zone: string)
    requires zone != "" && zone[|zone| - 1] != '.'
    ensures var full := Fqdn(name, zone);
      && (full == zone || EndsWith(full, "." + zone))
      && (name == "" || name == "@" ==> full == zone)
      && (name == zone || EndsWith(name, "." + zone) ==> full == name)
      && (name != "" && name != "@" && name[|name| - 1] != '.' && full != name ==>
        full == name + "." + zone)
  {
    var n := RightStrip(name, '.');
    if EndsWith(name, "." + zone) { assert name[|name| - 1] == zone[|zone| - 1]; }
    assert (n + "." + zone)[|n|..] == "." + zone;
  }

  lemma {:induction false} DottedGrows(zone: string)
    requires DotAtEnd(zone)
    ensures Fqdn(Fqdn("a", zone), zone) != Fqdn("a", zone)
  {
    var first := "a" + "." + zone;
    assert Fqdn("a", zone) == first;
    StripAppended("a" + ".", zone);
    assert |Fqdn(first, zone)| > |first|;
  }

  lemma {:induction false} FqdnTwice(name: string, zone: string)
    requires !DotAtEnd(zone)
    ensures Fqdn(Fqdn(name, zone), zone) == Fqdn(name, zone)
  {
    var n := RightStrip(name, '.');
    if n == "" || n == "@" {
      FqdnOfZone(zone);
    } else if n != zone && !EndsWith(n, "." + zone) {
      if RightStrip(zone, '.') == "" { AppendedDots(n, zone); } else { AppendedZone(n, zone); }
    } else {
      assert RightStrip(n, '.') == n;
    }
  }

  lemma {:induction false} FqdnOfZone(zone: string)
    requires !DotAtEnd(zone)
    ensures Fqdn(zone, zone) == zone
  {
  }

  lemma {:induction false} AppendedZone(n: string, zone: string)
    requires RightStrip(zone, '.') == zone != ""
    ensures Fqdn(n + "." + zone, zone) == n + "." + zone
  {
    var r := n + "." + zone;
    StripAppended(n + ".", zone);
    assert r == n + ("." + zone) && EndsWith(r, "." + zone);
    assert |r| > |zone|;
  }

  lemma {:induction false} AppendedDots(n: string, zone: string)
    requires RightStrip(zone, '.') == "" && n != "" && n != "@" && RightStrip(n, '.') == n && n != zone
      && !EndsWith(n, "." + zone)
    ensures Fqdn(n + "." + zone, zone) == n + "." + zone
  {
    StripOnlyDots(n + ".", zone);
    StripOnlyDots(n, ".");
  }

  // ------------------------------------------------------------------ the code

  class DnsZone {
    var entries: Zone

    constructor (z: Zone)
      ensures entries == z
    {
      entries := z;
    }

    /** upsert_records: look the name up, then leave, replace or add. */
    method UpsertRecords(records: seq<Record>)
      modifies this
      ensures entries == UpsertAll(old(entries), records)
    {
      for k := 0 to |records|
        invariant entries == UpsertAll(old(entries), records[..k])
      {
        assert records[..k + 1][..k] == records[..k];
        var r := records[k];
        if Present(entries, r) { continue; }
        var existing := First(entries, r);
        if existing.Some? && Singleton(r) {
          entries := entries[existing.value := EntryOf(r)];
        } else {
          entries := entries + [EntryOf(r)];
        }
      }
      assert records[..|records|] == records;
    }
  }
}
