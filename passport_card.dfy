/** One passport in a list: its status badge, category label and colour, GWP line and actions. */
module PassportCard {
  import opened Wrappers
  import opened Strings
  import opened Schema

  datatype StatusBadge = CompleteBadge | PublishedBadge | DraftBadge

  /** Every status other than complete and published is shown as a draft. */
  function BadgeOf(status: string): (b: StatusBadge)
    ensures b == CompleteBadge <==> status == CompleteStatus
    ensures b == PublishedBadge <==> status == PublishedStatus
  {
    if status == CompleteStatus then CompleteBadge
    else if status == PublishedStatus then PublishedBadge
    else DraftBadge
  }

  function BadgeText(b: StatusBadge): string {
    match b
    case CompleteBadge => "Complete"
    case PublishedBadge => "Published"
    case DraftBadge => "Draft"
  }

  const DefaultColor := "text-gray-600"

  /** The known categories, in lower case. */
  const KnownCategories: set<string> := {"steel", "concrete", "timber", "aluminum"}

  /** `switch (category?.toLowerCase())`; a missing or unknown category gets the default colour. */
  function CategoryColor(category: Option<string>): (color: string)
    ensures category.None? || Lower(category.value) !in KnownCategories ==> color == DefaultColor
    ensures category.Some? && Lower(category.value) == "concrete" ==> color == "text-stone-600"
    ensures category.Some? && Lower(category.value) == "timber" ==> color == "text-amber-600"
    ensures category.Some? && Lower(category.value) == "aluminum" ==> color == "text-slate-600"
    ensures category.Some? && Lower(category.value) == "steel" ==> color == DefaultColor
  {
    if category.None? then DefaultColor
    else
      var c := Lower(category.value);
      if c == "steel" then "text-gray-600"
      else if c == "concrete" then "text-stone-600"
      else if c == "timber" then "text-amber-600"
      else if c == "aluminum" then "text-slate-600"
      else DefaultColor
  }

  /** The colour ignores ASCII case. */
  lemma CategoryColorIgnoresCase(c: string)
    ensures CategoryColor(Some(Lower(c))) == CategoryColor(Some(c))
  {
    LowerIdempotent(c);
  }

  /** `category?.replace(/^\w/, c => c.toUpperCase())`: only a leading word character changes. */
  function DisplayCategory(category: Option<string>): (r: Option<string>)
    ensures r.None? <==> category.None?
    ensures r.Some? ==> |r.value| == |category.value|
    ensures r.Some? && |category.value| > 0 ==> r.value[1..] == category.value[1..]
    ensures r.Some? && |category.value| > 0 ==>
              r.value[0] == if IsWordChar(category.value[0]) then UpperChar(category.value[0]) else category.value[0]
  {
    if category.None? then None
    else if |category.value| > 0 && IsWordChar(category.value[0]) then
      Some([UpperChar(category.value[0])] + category.value[1..])
    else category
  }

  /** The displayed category differs from the stored one at most in the case of its first letter. */
  lemma DisplayOnlyChangesCase(c: string)
    ensures Lower(DisplayCategory(Some(c)).value) == Lower(c)
  {
    if |c| > 0 {
      LowerOfUpperChar(c[0]);
    }
  }

  /** The GWP line is drawn when `gwpTotal` is truthy: a decimal is text, so even "0" draws it. */
  function ShowsGwp(gwpTotal: Value): (shown: bool)
    ensures gwpTotal.Text? ==> (shown <==> gwpTotal.s != "")
    ensures gwpTotal.Null? ==> !shown
  {
    Truthy(gwpTotal)
  }

  /** The target of "Export JSON". */
  function ExportUrl(id: nat): (url: string)
    ensures StartsWith(url, "/api/passports/") && EndsWith(url, "/export/json")
  {
    "/api/passports/" + NatToString(id) + "/export/json"
  }

  /** The id can be read back from the export URL, so each passport exports itself. */
  lemma ExportUrlIdentifiesPassport(id: nat)
    ensures var url := ExportUrl(id);
            |url| >= 27 && AllDigits(url[15..|url| - 12]) && ParseNat(url[15..|url| - 12]) == id
  {
    var url := ExportUrl(id);
    assert url[15..|url| - 12] == NatToString(id);
    ParseNatToString(id);
  }

  /** Distinct passports export to distinct URLs. */
  lemma ExportUrlInjective(i: nat, j: nat)
    requires ExportUrl(i) == ExportUrl(j)
    ensures i == j
  {
    ExportUrlIdentifiesPassport(i);
    ExportUrlIdentifiesPassport(j);
  }

  /** The target of "Edit". */
  function EditPath(id: nat): (path: string)
    ensures StartsWith(path, "/passports/") && EndsWith(path, "/edit")
  {
    "/passports/" + NatToString(id) + "/edit"
  }
}
