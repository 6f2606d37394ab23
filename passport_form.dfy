/**
 * The passport editor: the completion tracker, the client-side validation,
 * the editable constituent list and the choice between creating and
 * updating on save.
 */
module PassportForm {
  import opened Wrappers
  import opened Numbers
  import opened Schema

  /**
   * The form values. `text` holds the string inputs under their column
   * names (a missing key is an undefined value); `serviceLife` is the
   * number input read with `valueAsNumber`, NaN when empty.
   */
  datatype FormData = FormData(text: map<Field, string>, serviceLife: JsNumber, constituents: seq<Constituent>, svhcFlag: bool)

  const DefaultConstituent := Constituent("", 0.0)

  // ---------------------------------------------------------------- tracker

  /** The sixteen fields the tracker looks at, in the order it lists them. */
  const RequiredFields: seq<Field> := [
    Name, Category, Density, Volume, StrengthClass, ServiceLife, ContentReference,
    VocClass, Gtin, Manufacturer, DisassemblyRating, RecyclabilityPercentage,
    GwpA1, GwpA2, GwpA3, StageDReduction ]

  /**
   * `value !== "" && value !== null && value !== undefined`. The service
   * life is a number, NaN included, so it always counts as filled.
   */
  predicate Filled(form: FormData, f: Field) {
    f == ServiceLife || (f in form.text && form.text[f] != "")
  }

  /** How many of `fields` are filled. */
  function CountFilled(form: FormData, fields: seq<Field>): (n: nat)
    ensures n <= |fields|
    ensures n == |fields| <==> forall i | 0 <= i < |fields| :: Filled(form, fields[i])
  {
    if fields == [] then 0
    else CountFilled(form, fields[..|fields| - 1]) + (if Filled(form, fields[|fields| - 1]) then 1 else 0)
  }

  /** Some entry names a material and has a positive share. */
  predicate ConstituentsComplete(cs: seq<Constituent>) {
    exists i | 0 <= i < |cs| :: cs[i].material != "" && cs[i].percentage > 0.0
  }

  /** The number of the seventeen requirements met. */
  function Completed(form: FormData): (k: nat)
    ensures 1 <= k <= 17
  {
    ServiceLifeCounted(form);
    CountFilled(form, RequiredFields) + (if ConstituentsComplete(form.constituents) then 1 else 0)
  }

  /** The service life, fixed at position 5 of the list, always contributes. */
  lemma ServiceLifeCounted(form: FormData)
    ensures CountFilled(form, RequiredFields) >= 1
  {
    CountAtLeastOne(form, RequiredFields, 5);
  }

  lemma {:induction false} CountAtLeastOne(form: FormData, fields: seq<Field>, i: nat)
    requires i < |fields| && Filled(form, fields[i])
    ensures CountFilled(form, fields) >= 1
    decreases |fields|
  {
    if i < |fields| - 1 {
      CountAtLeastOne(form, fields[..|fields| - 1], i);
    }
  }

  /** `Math.round` on a non-negative number: halves go up. */
  function RoundHalfUp(x: real): int {
    (x + 0.5).Floor
  }

  /** `Math.round(done / 17 * 100)` on exact values. */
  function Progress(k: nat): int {
    RoundHalfUp(100.0 * k as real / 17.0)
  }

  /** The rounding in whole numbers: `(200k + 17) div 34`. */
  lemma ProgressFormula(k: nat)
    ensures Progress(k) == (200 * k + 17) / 34
  {
    var q := (200 * k + 17) / 34;
    var r := (200 * k + 17) % 34;
    assert (200 * k + 17) as real == 34.0 * q as real + r as real;
    var x := 100.0 * k as real / 17.0 + 0.5;
    assert x == (200 * k + 17) as real / 34.0;
    assert x == q as real + r as real / 34.0;
    assert q as real <= x < q as real + 1.0;
  }

  /** The exact value is never half way between two integers, so the rounding direction never matters. */
  lemma NoTies(k: nat, m: int)
    ensures 100.0 * k as real / 17.0 != m as real + 0.5
  {
  }

  /** Progress lies in 0..100 and is 100 exactly when all seventeen requirements hold. */
  lemma ProgressBounds(k: nat)
    requires k <= 17
    ensures 0 <= Progress(k) <= 100
    ensures Progress(k) == 100 <==> k == 17
  {
    ProgressFormula(k);
  }

  /** One more requirement met always raises the percentage shown. */
  lemma ProgressStrictlyIncreasing(j: nat, k: nat)
    requires j < k
    ensures Progress(j) < Progress(k)
  {
    ProgressFormula(j);
    ProgressFormula(k);
  }

  function FormProgress(form: FormData): (p: int)
    ensures 6 <= p <= 100
    ensures p == 100 <==> (forall i | 0 <= i < |RequiredFields| :: Filled(form, RequiredFields[i])) && ConstituentsComplete(form.constituents)
  {
    var k := Completed(form);
    ProgressBounds(k);
    ProgressFormula(1);
    ProgressFormula(k);
    Progress(k)
  }

  /** The header badge. */
  function ProgressBadge(form: FormData): (badge: string)
    ensures badge == "Complete" <==> FormProgress(form) == 100
    ensures badge != "Complete" ==> badge == "Draft"
  {
    if FormProgress(form) == 100 then "Complete" else "Draft"
  }

  /** Filling in a field never lowers the count, and raises it by one when the field is in the list and was empty. */
  lemma {:induction false} FillingRaisesCount(form: FormData, fields: seq<Field>, f: Field, v: string)
    requires v != ""
    ensures var filled := form.(text := form.text[f := v]);
            && CountFilled(filled, fields) >= CountFilled(form, fields)
            && (f in fields && !Filled(form, f) ==> CountFilled(filled, fields) > CountFilled(form, fields))
    decreases |fields|
  {
    if fields != [] {
      var init := fields[..|fields| - 1];
      FillingRaisesCount(form, init, f, v);
      if f in fields && f !in init {
        assert fields[|fields| - 1] == f by {
          assert fields == init + [fields[|fields| - 1]];
        }
      }
    }
  }

  /** Typing a value into an empty tracked field raises the progress shown. */
  lemma FillingRaisesProgress(form: FormData, f: Field, v: string)
    requires v != "" && f in RequiredFields && !Filled(form, f)
    ensures FormProgress(form.(text := form.text[f := v])) > FormProgress(form)
  {
    FillingRaisesCount(form, RequiredFields, f, v);
    ProgressStrictlyIncreasing(Completed(form), Completed(form.(text := form.text[f := v])));
  }

  // ---------------------------------------------------------------- validation

  /** The text inputs the client schema requires to be non-empty. */
  const RequiredTexts: seq<Field> := [
    Name, Category, Density, Volume, StrengthClass, ContentReference,
    VocClass, Gtin, Manufacturer, DisassemblyRating, RecyclabilityPercentage,
    GwpA1, GwpA2, GwpA3, StageDReduction ]

  /**
   * The client schema: every required text set, a service life of at least
   * one and at least one constituent (whatever its contents).
   */
  predicate Validates(form: FormData)
    ensures Validates(form) ==> forall i | 0 <= i < |RequiredFields| :: Filled(form, RequiredFields[i])
  {
    RequiredFieldsAreTexts();
    && (forall i | 0 <= i < |RequiredTexts| :: RequiredTexts[i] in form.text && form.text[RequiredTexts[i]] != "")
    && form.serviceLife.Finite? && form.serviceLife.value >= 1.0
    && |form.constituents| >= 1
  }

  /** Every tracked field other than the service life is a required text. */
  lemma RequiredFieldsAreTexts()
    ensures forall i | 0 <= i < |RequiredFields| :: RequiredFields[i] == ServiceLife || RequiredFields[i] in RequiredTexts
  {
    forall i | 0 <= i < |RequiredFields|
      ensures RequiredFields[i] == ServiceLife || RequiredFields[i] in RequiredTexts
    {
      if RequiredFields[i] != ServiceLife {
        assert RequiredFields[i] in RequiredTexts;
      }
    }
  }

  /** A form that validates has every tracked field filled, so it shows at least 94 percent. */
  lemma ValidatedFormProgress(form: FormData)
    requires Validates(form)
    ensures FormProgress(form) >= 94
  {
    forall i | 0 <= i < |RequiredFields| ensures Filled(form, RequiredFields[i]) {
      if RequiredFields[i] != ServiceLife {
        assert RequiredFields[i] in RequiredTexts;
      }
    }
    ProgressFormula(16);
    ProgressFormula(17);
  }

  /** A validated form whose only constituent is still blank is saved while the badge says Draft. */
  lemma ValidatedYetDraft()
    ensures var form := FormData(map f | f in RequiredTexts :: "x", Finite(50.0), [DefaultConstituent], false);
            Validates(form) && ProgressBadge(form) == "Draft"
  {
    var form := FormData(map f | f in RequiredTexts :: "x", Finite(50.0), [DefaultConstituent], false);
    assert !ConstituentsComplete(form.constituents);
  }

  // ---------------------------------------------------------------- constituents

  /** The material input of entry `i`. */
  function WithMaterial(cs: seq<Constituent>, i: nat, m: string): (r: seq<Constituent>)
    requires i < |cs|
    ensures |r| == |cs| && r[i] == Constituent(m, cs[i].percentage)
    ensures forall j | 0 <= j < |cs| && j != i :: r[j] == cs[j]
  {
    cs[i := cs[i].(material := m)]
  }

  /** The percentage input of entry `i`: `parseFloat(input) || 0`. */
  function WithPercentage(num: NumberFormat, cs: seq<Constituent>, i: nat, input: string): (r: seq<Constituent>)
    requires i < |cs|
    ensures |r| == |cs| && r[i].material == cs[i].material
    ensures r[i].percentage == OrElse(num.parse(input), 0.0)
    ensures forall j | 0 <= j < |cs| && j != i :: r[j] == cs[j]
  {
    cs[i := cs[i].(percentage := OrElse(num.parse(input), 0.0))]
  }

  /** The Remove button is rendered only while there is more than one entry. */
  predicate RemoveOffered(cs: seq<Constituent>) {
    |cs| > 1
  }

  /** `filter((_, j) => j !== i)`: the other entries, in order. */
  function Without(cs: seq<Constituent>, i: nat): (r: seq<Constituent>)
    requires i < |cs|
    ensures |r| == |cs| - 1
    ensures forall j | 0 <= j < i :: r[j] == cs[j]
    ensures forall j | i <= j < |r| :: r[j] == cs[j + 1]
    ensures RemoveOffered(cs) ==> |r| >= 1
  {
    cs[..i] + cs[i + 1..]
  }

  function WithAdded(cs: seq<Constituent>): (r: seq<Constituent>)
    ensures |r| == |cs| + 1 && r[..|cs|] == cs && r[|cs|] == DefaultConstituent
  {
    cs + [DefaultConstituent]
  }

  /** Removing the entry just added gives the list back. */
  lemma RemoveAddedIsIdentity(cs: seq<Constituent>)
    ensures Without(WithAdded(cs), |cs|) == cs
  {
    assert WithAdded(cs)[..|cs|] == cs;
  }

  /** A blank entry only ever helps the constituent requirement if another entry already meets it. */
  lemma AddingKeepsCompleteness(cs: seq<Constituent>)
    ensures ConstituentsComplete(WithAdded(cs)) <==> ConstituentsComplete(cs)
  {
    var r := WithAdded(cs);
    if ConstituentsComplete(r) {
      var i :| 0 <= i < |r| && r[i].material != "" && r[i].percentage > 0.0;
      assert i < |cs| && cs[i] == r[i];
    }
    if ConstituentsComplete(cs) {
      var i :| 0 <= i < |cs| && cs[i].material != "" && cs[i].percentage > 0.0;
      assert r[i] == cs[i];
    }
  }

  // ---------------------------------------------------------------- loading and saving

  function TextOrEmpty(v: Value): string {
    if v.Text? then v.s else ""
  }

  /** `form.reset` from a stored passport: each text `|| ""`, the service life `|| 50`, the list `|| [blank]`. */
  function FormOfPassport(p: Passport): (form: FormData)
    ensures forall f | f in RequiredFields :: Filled(form, f) <==> f == ServiceLife || (Truthy(p.Get(f)) && p.Get(f).Text?)
    ensures form.serviceLife == if p.Get(ServiceLife).Num? && p.Get(ServiceLife).n != 0.0 then Finite(p.Get(ServiceLife).n) else Finite(50.0)
  {
    FormData(
      map f | f in RequiredFields + [BomObjectGuid] && f != ServiceLife :: TextOrEmpty(p.Get(f)),
      if p.Get(ServiceLife).Num? && p.Get(ServiceLife).n != 0.0 then Finite(p.Get(ServiceLife).n) else Finite(50.0),
      ConstituentsOf(p.Get(Constituents)),
      p.Get(SvhcFlag).Bool? && p.Get(SvhcFlag).b)
  }

  /**
   * `passport.constituents || [blank]`: a stored list, even an empty one, is
   * kept, and every falsy value (null, "", false, 0) gives one blank entry.
   * A truthy value that is not a list, which the editor cannot show, also
   * gives one blank entry here.
   */
  function ConstituentsOf(v: Value): (cs: seq<Constituent>)
    ensures v.ConstituentList? ==> cs == v.items
    ensures !Truthy(v) ==> cs == [DefaultConstituent]
    ensures Truthy(v) && !v.ConstituentList? ==> cs == [DefaultConstituent]
  {
    if v.ConstituentList? then v.items else [DefaultConstituent]
  }

  datatype SaveRequest = SaveRequest(method_: string, url: string, body: FormData)

  /**
   * The save mutation: PUT to the passport's own URL when editing, POST to
   * the collection otherwise; the constituents sent are the edited list.
   */
  function Save(editingId: Option<string>, data: FormData, edited: seq<Constituent>): (r: SaveRequest)
    ensures r.method_ == "PUT" <==> editingId.Some? && editingId.value != ""
    ensures r.method_ != "PUT" ==> r.method_ == "POST" && r.url == "/api/passports"
    ensures r.method_ == "PUT" ==> r.url == "/api/passports/" + editingId.value
    ensures r.body.constituents == edited
    ensures r.body.text == data.text && r.body.serviceLife == data.serviceLife && r.body.svhcFlag == data.svhcFlag
  {
    if editingId.Some? && editingId.value != "" then SaveRequest("PUT", "/api/passports/" + editingId.value, data.(constituents := edited))
    else SaveRequest("POST", "/api/passports", data.(constituents := edited))
  }

  /** The editor's state: the form values and the separately edited constituent list. */
  class Editor {
    var form: FormData
    var constituents: seq<Constituent>

    constructor ()
      ensures constituents == [DefaultConstituent]
      ensures form.constituents == [DefaultConstituent] && form.serviceLife == Finite(50.0) && !form.svhcFlag
      ensures forall f | f in form.text :: form.text[f] == ""
    {
      form := FormData(map f | f in RequiredFields + [BomObjectGuid] && f != ServiceLife :: "", Finite(50.0), [DefaultConstituent], false);
      constituents := [DefaultConstituent];
    }

    method Load(p: Passport)
      modifies this
      ensures form == FormOfPassport(p)
      ensures constituents == ConstituentsOf(p.Get(Constituents))
    {
      form := FormOfPassport(p);
      constituents := ConstituentsOf(p.Get(Constituents));
    }

    method EditMaterial(i: nat, m: string)
      requires i < |constituents|
      modifies this
      ensures constituents == WithMaterial(old(constituents), i, m)
      ensures form == old(form)
    {
      constituents := WithMaterial(constituents, i, m);
    }

    method EditPercentage(num: NumberFormat, i: nat, input: string)
      requires i < |constituents|
      modifies this
      ensures constituents == WithPercentage(num, old(constituents), i, input)
      ensures form == old(form)
    {
      constituents := WithPercentage(num, constituents, i, input);
    }

    method Remove(i: nat)
      requires i < |constituents| && RemoveOffered(constituents)
      modifies this
      ensures constituents == Without(old(constituents), i) && |constituents| >= 1
      ensures form == old(form)
    {
      constituents := Without(constituents, i);
    }

    method Add()
      modifies this
      ensures constituents == WithAdded(old(constituents))
      ensures form == old(form)
    {
      constituents := WithAdded(constituents);
    }
  }
}
