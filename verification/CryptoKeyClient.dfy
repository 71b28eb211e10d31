/** KMS crypto keys (pkg/clients/cryptokey/cryptokey.go:43-55 and 113-155): the
    overlay and the update mask that IsUpToDate computes for the patch call. */
module CryptoKeyClient {
  import opened Gcp

  datatype Template = Template(algorithm: string, protectionLevel: string)
  datatype CryptoKey = CryptoKey(
    labels: map<string, string>, purpose: string, rotationPeriod: string, nextRotationTime: string,
    template: Option<Template>, name: string)
  datatype TemplateSpec = TemplateSpec(algorithm: Option<string>, protectionLevel: Option<string>)
  datatype CryptoKeySpec = CryptoKeySpec(
    labels: map<string, string>, purpose: string, rotationPeriod: Option<string>,
    nextRotationTime: Option<string>, template: Option<TemplateSpec>)

  function Overlay(s: CryptoKeySpec, o: CryptoKey): CryptoKey {
    CryptoKey(s.labels, s.purpose, StringValue(s.rotationPeriod), StringValue(s.nextRotationTime),
              if s.template.None? then o.template
              else Some(Template(StringValue(s.template.value.algorithm), StringValue(s.template.value.protectionLevel))),
              o.name)
  }

  /** The fields a mask can name, and their names. */
  datatype MaskField = Labels | Purpose | RotationPeriod | NextRotationTime | Algorithm | ProtectionLevel

  function Name(f: MaskField): string {
    match f
    case Labels => "labels"
    case Purpose => "purpose"
    case RotationPeriod => "rotationPeriod"
    case NextRotationTime => "nextRotationTime"
    case Algorithm => "versionTemplate.algorithm"
    case ProtectionLevel => "versionTemplate.protectionLevel"
  }

  /** The comparison of the template dereferences a nil observed one. */
  predicate MaskPanics(s: CryptoKeySpec, o: CryptoKey) {
    s.template.Some? && o.template.None?
  }

  /** One comparison: the field is appended when it differs. */
  function Add(m: seq<MaskField>, differs: bool, f: MaskField): (r: seq<MaskField>)
    ensures forall g :: g in r <==> g in m || (differs && g == f)
  {
    if differs then m + [f] else m
  }

  function MaskOfKey(d: CryptoKey, o: CryptoKey): seq<MaskField> {
    Add(Add(Add(Add([], d.labels != o.labels, Labels),
                d.purpose != o.purpose, Purpose),
            d.rotationPeriod != o.rotationPeriod, RotationPeriod),
        d.nextRotationTime != o.nextRotationTime, NextRotationTime)
  }

  function MaskOfTemplate(m: seq<MaskField>, d: Template, o: Template): seq<MaskField> {
    Add(Add(m, d.algorithm != o.algorithm, Algorithm), d.protectionLevel != o.protectionLevel, ProtectionLevel)
  }

  function Mask(s: CryptoKeySpec, o: CryptoKey): seq<MaskField>
    requires !MaskPanics(s, o)
  {
    var d := Overlay(s, o);
    if d.template == o.template then MaskOfKey(d, o)
    else MaskOfTemplate(MaskOfKey(d, o), d.template.value, o.template.value)
  }

  // ---- what the mask says ----

  /** The named field of the two keys is equal. */
  predicate SameField(f: MaskField, a: CryptoKey, b: CryptoKey) {
    match f
    case Labels => a.labels == b.labels
    case Purpose => a.purpose == b.purpose
    case RotationPeriod => a.rotationPeriod == b.rotationPeriod
    case NextRotationTime => a.nextRotationTime == b.nextRotationTime
    case Algorithm =>
      && (a.template.Some? <==> b.template.Some?)
      && (a.template.Some? ==> a.template.value.algorithm == b.template.value.algorithm)
    case ProtectionLevel =>
      && (a.template.Some? <==> b.template.Some?)
      && (a.template.Some? ==> a.template.value.protectionLevel == b.template.value.protectionLevel)
  }

  /** The key is the one the spec describes, read off the spec itself: an unset text asks
      for an empty one, an unset template for nothing. */
  predicate Described(s: CryptoKeySpec, o: CryptoKey) {
    && o.labels == s.labels && o.purpose == s.purpose
    && o.rotationPeriod == (if s.rotationPeriod.Some? then s.rotationPeriod.value else "")
    && o.nextRotationTime == (if s.nextRotationTime.Some? then s.nextRotationTime.value else "")
    && (s.template.Some? ==>
          && o.template.Some?
          && o.template.value.algorithm ==
             (if s.template.value.algorithm.Some? then s.template.value.algorithm.value else "")
          && o.template.value.protectionLevel ==
             (if s.template.value.protectionLevel.Some? then s.template.value.protectionLevel.value else ""))
  }

  /** What is generated is what the spec describes; the name, and a template that the
      spec leaves alone, are kept. */
  lemma OverlayIsDescribed(s: CryptoKeySpec, o: CryptoKey)
    ensures Described(s, Overlay(s, o)) && Overlay(s, o).name == o.name
    ensures s.template.None? ==> Overlay(s, o).template == o.template
  {
  }

  /** The mask is empty exactly when the key is the one described. */
  lemma EmptyMaskIff(s: CryptoKeySpec, o: CryptoKey)
    requires !MaskPanics(s, o)
    ensures Mask(s, o) == [] <==> Described(s, o)
  {
    if Mask(s, o) == [] {
      forall f: MaskField
        ensures SameField(f, Overlay(s, o), o)
      {
        MaskIsExact(s, o, f);
      }
      assert SameField(Labels, Overlay(s, o), o) && SameField(Purpose, Overlay(s, o), o);
      assert SameField(RotationPeriod, Overlay(s, o), o) && SameField(NextRotationTime, Overlay(s, o), o);
      assert SameField(Algorithm, Overlay(s, o), o) && SameField(ProtectionLevel, Overlay(s, o), o);
    }
  }

  /** Sound and complete: the mask lists the fields that differ, and no other. */
  lemma MaskIsExact(s: CryptoKeySpec, o: CryptoKey, f: MaskField)
    requires !MaskPanics(s, o)
    ensures f in Mask(s, o) <==> !SameField(f, Overlay(s, o), o)
  {
  }

  function Rank(f: MaskField): nat {
    match f
    case Labels => 0
    case Purpose => 1
    case RotationPeriod => 2
    case NextRotationTime => 3
    case Algorithm => 4
    case ProtectionLevel => 5
  }

  /** Each field comes after the ones before it. */
  predicate InOrder(m: seq<MaskField>, below: nat) {
    m == [] || (Rank(m[|m| - 1]) < below && InOrder(m[..|m| - 1], Rank(m[|m| - 1])))
  }

  lemma AddKeepsOrder(m: seq<MaskField>, differs: bool, f: MaskField, below: nat)
    requires InOrder(m, below) && below <= Rank(f)
    ensures InOrder(Add(m, differs, f), Rank(f) + 1)
  {
  }

  lemma {:induction false} InOrderHasNoRepeats(m: seq<MaskField>, below: nat)
    requires InOrder(m, below)
    ensures forall i :: 0 <= i < |m| ==> Rank(m[i]) < below
    ensures forall i, j :: 0 <= i < j < |m| ==> m[i] != m[j]
  {
    if m != [] {
      InOrderHasNoRepeats(m[..|m| - 1], Rank(m[|m| - 1]));
    }
  }

  lemma TwoInOrder(m: seq<MaskField>, b: bool, f: MaskField, c: bool, g: MaskField)
    requires InOrder(m, Rank(f)) && Rank(f) < Rank(g)
    ensures InOrder(Add(Add(m, b, f), c, g), Rank(g) + 1)
  {
    AddKeepsOrder(m, b, f, Rank(f));
    AddKeepsOrder(Add(m, b, f), c, g, Rank(f) + 1);
  }

  lemma KeyMaskIsInOrder(d: CryptoKey, o: CryptoKey)
    ensures InOrder(MaskOfKey(d, o), 4)
  {
    TwoInOrder([], d.labels != o.labels, Labels, d.purpose != o.purpose, Purpose);
    var m := Add(Add([], d.labels != o.labels, Labels), d.purpose != o.purpose, Purpose);
    TwoInOrder(m, d.rotationPeriod != o.rotationPeriod, RotationPeriod,
               d.nextRotationTime != o.nextRotationTime, NextRotationTime);
  }

  /** And lists each of them once. */
  lemma MaskListsOnce(s: CryptoKeySpec, o: CryptoKey)
    requires !MaskPanics(s, o)
    ensures var m := Mask(s, o); forall i, j :: 0 <= i < j < |m| ==> m[i] != m[j]
  {
    var d := Overlay(s, o);
    var m := MaskOfKey(d, o);
    KeyMaskIsInOrder(d, o);
    InOrderHasNoRepeats(m, 4);
    if d.template != o.template {
      var dt, ot := d.template.value, o.template.value;
      TwoInOrder(m, dt.algorithm != ot.algorithm, Algorithm, dt.protectionLevel != ot.protectionLevel, ProtectionLevel);
      InOrderHasNoRepeats(Mask(s, o), 6);
    }
  }

  /** The assumption about the API: patching with a mask writes the named fields of
      the request and leaves the others. */
  function Patch(o: CryptoKey, d: CryptoKey, fs: set<MaskField>): CryptoKey {
    CryptoKey(
      if Labels in fs then d.labels else o.labels,
      if Purpose in fs then d.purpose else o.purpose,
      if RotationPeriod in fs then d.rotationPeriod else o.rotationPeriod,
      if NextRotationTime in fs then d.nextRotationTime else o.nextRotationTime,
      if o.template.Some? && d.template.Some?
      then Some(Template(if Algorithm in fs then d.template.value.algorithm else o.template.value.algorithm,
                         if ProtectionLevel in fs then d.template.value.protectionLevel
                         else o.template.value.protectionLevel))
      else o.template,
      o.name)
  }

  /** Minimal: after patching any set of fields, what differs is exactly what
      differed and was not in the set. */
  lemma PatchSettlesExactly(s: CryptoKeySpec, o: CryptoKey, fs: set<MaskField>, f: MaskField)
    requires !MaskPanics(s, o)
    ensures var p := Patch(o, Overlay(s, o), fs);
            !MaskPanics(s, p) && (f in Mask(s, p) <==> f in Mask(s, o) && f !in fs)
  {
    var p := Patch(o, Overlay(s, o), fs);
    MaskIsExact(s, o, f);
    MaskIsExact(s, p, f);
  }

  // ---- the mask travels as one string ----

  function Names(fs: seq<MaskField>): (r: seq<string>)
    ensures |r| == |fs| && forall i :: 0 <= i < |fs| ==> r[i] == Name(fs[i])
  {
    if fs == [] then [] else [Name(fs[0])] + Names(fs[1..])
  }

  /** strings.Join with a comma. */
  function Join(items: seq<string>): string {
    if items == [] then "" else if |items| == 1 then items[0] else items[0] + "," + Join(items[1..])
  }

  function Split(s: string): (r: seq<string>)
    ensures r != []
  {
    if s == "" then [""]
    else if s[0] == ',' then [""] + Split(s[1..])
    else
      var rest := Split(s[1..]);
      [[s[0]] + rest[0]] + rest[1..]
  }

  /** The fields a mask string names. */
  function Parse(text: string): set<MaskField> {
    var names := Split(text);
    set f: MaskField | Name(f) in names
  }

  lemma {:induction false} SplitAtComma(a: string, b: string)
    requires ',' !in a
    ensures Split(a) == [a]
    ensures Split(a + "," + b) == [a] + Split(b)
  {
    if a == "" {
      assert (a + "," + b)[1..] == b;
    } else {
      SplitAtComma(a[1..], b);
      assert (a + "," + b)[1..] == a[1..] + "," + b;
      assert [a[0]] + a[1..] == a;
    }
  }

  lemma {:induction false} SplitUndoesJoin(items: seq<string>)
    requires items != [] && forall x :: x in items ==> ',' !in x
    ensures Split(Join(items)) == items
  {
    SplitAtComma(items[0], "");
    if |items| > 1 {
      SplitUndoesJoin(items[1..]);
      SplitAtComma(items[0], Join(items[1..]));
    }
  }

  lemma NamesAreDistinct(f: MaskField, g: MaskField)
    ensures Name(f) == Name(g) ==> f == g
  {
  }

  lemma NamesHaveNoComma(f: MaskField)
    ensures ',' !in Name(f)
  {
  }

  lemma ParseUndoesJoin(fs: seq<MaskField>)
    requires fs != []
    ensures Parse(Join(Names(fs))) == set f | f in fs
  {
    forall x | x in Names(fs)
      ensures ',' !in x
    {
      var i :| 0 <= i < |fs| && x == Name(fs[i]);
      NamesHaveNoComma(fs[i]);
    }
    SplitUndoesJoin(Names(fs));
    forall f: MaskField
      ensures Name(f) in Names(fs) <==> f in fs
    {
      if Name(f) in Names(fs) {
        var i :| 0 <= i < |fs| && Name(f) == Name(fs[i]);
        NamesAreDistinct(f, fs[i]);
      }
      if f in fs {
        var i :| 0 <= i < |fs| && fs[i] == f;
        assert Names(fs)[i] == Name(f);
      }
    }
  }

  /** The whole round: the mask, sent as one string, read back by the service and
      patched, makes the key up to date with an empty mask. */
  lemma UpdateSettles(s: CryptoKeySpec, o: CryptoKey)
    requires !MaskPanics(s, o) && Mask(s, o) != []
    ensures var p := Patch(o, Overlay(s, o), Parse(Join(Names(Mask(s, o)))));
            !MaskPanics(s, p) && Mask(s, p) == [] && Described(s, p)
  {
    var m := Mask(s, o);
    ParseUndoesJoin(m);
    NothingLeft(s, o, set f | f in m);
    EmptyMaskIff(s, Patch(o, Overlay(s, o), set f | f in m));
  }

  /** A mask of one field is the API's name of that field. */
  lemma MaskNames(s: CryptoKeySpec, o: CryptoKey)
    requires !MaskPanics(s, o) && |Mask(s, o)| == 1
    ensures var text := Join(Names(Mask(s, o)));
            && (o.labels != s.labels ==> text == "labels")
            && (o.purpose != s.purpose ==> text == "purpose")
            && (s.rotationPeriod.Some? && o.rotationPeriod != s.rotationPeriod.value ==> text == "rotationPeriod")
            && (s.nextRotationTime.Some? && o.nextRotationTime != s.nextRotationTime.value ==>
                  text == "nextRotationTime")
            && (s.template.Some? ==>
                  && var t, u := s.template.value, o.template.value;
                  && (t.algorithm.Some? && u.algorithm != t.algorithm.value ==>
                        text == "versionTemplate.algorithm")
                  && (t.protectionLevel.Some? && u.protectionLevel != t.protectionLevel.value ==>
                        text == "versionTemplate.protectionLevel"))
  {
    var f := Mask(s, o)[0];
    forall g: MaskField
      ensures !SameField(g, Overlay(s, o), o) <==> g == f
    {
      MaskIsExact(s, o, g);
    }
    assert Names(Mask(s, o)) == [Name(f)];
    OneNamed(f, s, o);
  }

  lemma OneNamed(f: MaskField, s: CryptoKeySpec, o: CryptoKey)
    requires !MaskPanics(s, o) && forall g: MaskField :: !SameField(g, Overlay(s, o), o) <==> g == f
    ensures o.labels != s.labels ==> f == Labels
    ensures o.purpose != s.purpose ==> f == Purpose
    ensures s.rotationPeriod.Some? && o.rotationPeriod != s.rotationPeriod.value ==> f == RotationPeriod
    ensures s.nextRotationTime.Some? && o.nextRotationTime != s.nextRotationTime.value ==> f == NextRotationTime
    ensures s.template.Some? ==>
              && var t, u := s.template.value, o.template.value;
              && (t.algorithm.Some? && u.algorithm != t.algorithm.value ==> f == Algorithm)
              && (t.protectionLevel.Some? && u.protectionLevel != t.protectionLevel.value ==> f == ProtectionLevel)
  {
    var d := Overlay(s, o);
    assert SameField(Labels, d, o) || f == Labels;
    assert SameField(Purpose, d, o) || f == Purpose;
    assert SameField(RotationPeriod, d, o) || f == RotationPeriod;
    assert SameField(NextRotationTime, d, o) || f == NextRotationTime;
    assert SameField(Algorithm, d, o) || f == Algorithm;
    assert SameField(ProtectionLevel, d, o) || f == ProtectionLevel;
  }

  lemma NothingLeft(s: CryptoKeySpec, o: CryptoKey, fs: set<MaskField>)
    requires !MaskPanics(s, o) && forall f: MaskField :: f in Mask(s, o) ==> f in fs
    ensures var p := Patch(o, Overlay(s, o), fs); !MaskPanics(s, p) && Mask(s, p) == []
  {
    var p := Patch(o, Overlay(s, o), fs);
    PatchSettlesExactly(s, o, fs, Labels);
    if Mask(s, p) != [] {
      PatchSettlesExactly(s, o, fs, Mask(s, p)[0]);
    }
  }

  // ---- the code ----

  method GenerateCryptoKeyInstance(s: CryptoKeySpec, ck: Pointer<CryptoKey>)
    modifies ck
    ensures ck.it == Overlay(s, old(ck.it)) && Described(s, ck.it)
  {
    ck.it := ck.it.(labels := s.labels);
    ck.it := ck.it.(purpose := s.purpose);
    ck.it := ck.it.(rotationPeriod := StringValue(s.rotationPeriod));
    ck.it := ck.it.(nextRotationTime := StringValue(s.nextRotationTime));
    if s.template.Some? {
      if ck.it.template.None? {
        ck.it := ck.it.(template := Some(Template("", "")));
      }
      var t := ck.it.template.value.(algorithm := StringValue(s.template.value.algorithm));
      ck.it := ck.it.(template := Some(t.(protectionLevel := StringValue(s.template.value.protectionLevel))));
    }
  }

  /** One comparison of IsUpToDate: the field is appended when it differs. */
  method AppendIf(um: seq<MaskField>, differs: bool, f: MaskField) returns (r: seq<MaskField>)
    ensures r == Add(um, differs, f)
  {
    r := um;
    if differs {
      r := r + [f];
    }
  }

  /** Reports the joined mask, or dereferences nil. */
  method IsUpToDate(s: CryptoKeySpec, observed: CryptoKey) returns (r: Outcome<(bool, string)>)
    ensures r.Panics? <==> MaskPanics(s, observed)
    ensures r.Returns? ==> r.value == (Mask(s, observed) == [], Join(Names(Mask(s, observed))))
    ensures r.Returns? ==> (r.value.0 <==> Described(s, observed))
  {
    var um: seq<MaskField> := [];
    var copy := new Pointer(observed);
    GenerateCryptoKeyInstance(s, copy);
    var desired := copy.it;
    um := AppendIf(um, desired.labels != observed.labels, Labels);
    um := AppendIf(um, desired.purpose != observed.purpose, Purpose);
    um := AppendIf(um, desired.rotationPeriod != observed.rotationPeriod, RotationPeriod);
    um := AppendIf(um, desired.nextRotationTime != observed.nextRotationTime, NextRotationTime);
    if desired.template != observed.template {
      if observed.template.None? {
        return Panics;
      }
      var dt, ot := desired.template.value, observed.template.value;
      um := AppendIf(um, dt.algorithm != ot.algorithm, Algorithm);
      um := AppendIf(um, dt.protectionLevel != ot.protectionLevel, ProtectionLevel);
    }
    EmptyMaskIff(s, observed);
    if |um| > 0 {
      return Returns((false, Join(Names(um))));
    }
    return Returns((true, ""));
  }
}
