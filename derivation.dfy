/**
 * The derived columns of a passport write: weight from density and volume,
 * gwpTotal as the sum of the EN 15804 stages A1-A3, and netGwp as that total
 * less the Stage D reduction. The handlers compute them from the request
 * payload alone, before the payload is stored.
 */
module Derivation {
  import opened Schema
  import opened Numbers

  /** `validatedData.f` is truthy: the request supplied a non-empty decimal text. */
  predicate Present(p: Payload, f: Field) {
    f in p && p[f].Text? && p[f].s != ""
  }

  /** On a validated payload, a decimal column is present exactly when it is truthy. */
  lemma PresentIsTruthy(p: Payload, f: Field)
    requires f in p && Accepts(f, p[f]) && KindOf(f) == DecimalKind
    ensures Present(p, f) <==> Truthy(p[f])
  {
  }

  function Parsed(num: NumberFormat, p: Payload, f: Field): JsNumber
    requires Present(p, f)
  {
    num.parse(p[f].s)
  }

  predicate HasWeightInputs(p: Payload) {
    Present(p, Density) && Present(p, Volume)
  }

  predicate HasGwpInputs(p: Payload) {
    Present(p, GwpA1) && Present(p, GwpA2) && Present(p, GwpA3)
  }

  predicate HasNetGwpInputs(p: Payload) {
    HasGwpInputs(p) && Present(p, StageDReduction)
  }

  /** `(parseFloat(density) * parseFloat(volume)).toString()` */
  function WeightOf(num: NumberFormat, p: Payload): Value
    requires HasWeightInputs(p)
  {
    Text(num.show(Mul(Parsed(num, p, Density), Parsed(num, p, Volume))))
  }

  /** The A1-A3 sum as a number, before it is turned into text. */
  function GwpSum(num: NumberFormat, p: Payload): JsNumber
    requires HasGwpInputs(p)
  {
    Add(Add(Parsed(num, p, GwpA1), Parsed(num, p, GwpA2)), Parsed(num, p, GwpA3))
  }

  function GwpTotalOf(num: NumberFormat, p: Payload): Value
    requires HasGwpInputs(p)
  {
    Text(num.show(GwpSum(num, p)))
  }

  /** The net figure is taken from the numeric sum, not from the gwpTotal text. */
  function NetGwpOf(num: NumberFormat, p: Payload): Value
    requires HasNetGwpInputs(p)
  {
    Text(num.show(Sub(GwpSum(num, p), Parsed(num, p, StageDReduction))))
  }

  /** Column `f` is carried from `p` to `r` as it was, present or absent. */
  predicate Passes(p: Payload, r: Payload, f: Field) {
    (f in r <==> f in p) && (f in p ==> r[f] == p[f])
  }

  predicate IsDerived(f: Field) {
    f == Weight || f == GwpTotal || f == NetGwp
  }

  /**
   * The POST and PUT handlers' derivation step on `validatedData`: weight when
   * density and volume are both present, gwpTotal when A1, A2 and A3 are, and
   * netGwp only inside that step when Stage D is present too. Every other
   * column, and every derived column whose inputs are not all present, is
   * passed through unchanged.
   */
  function DerivePayload(num: NumberFormat, p: Payload): (r: Payload)
    ensures forall f | !IsDerived(f) :: Passes(p, r, f)
    ensures HasWeightInputs(p) ==> Weight in r && r[Weight] == WeightOf(num, p)
    ensures !HasWeightInputs(p) ==> Passes(p, r, Weight)
    ensures HasGwpInputs(p) ==> GwpTotal in r && r[GwpTotal] == GwpTotalOf(num, p)
    ensures !HasGwpInputs(p) ==> Passes(p, r, GwpTotal)
    ensures HasNetGwpInputs(p) ==> NetGwp in r && r[NetGwp] == NetGwpOf(num, p)
    ensures !HasNetGwpInputs(p) ==> Passes(p, r, NetGwp)
  {
    var withWeight := if HasWeightInputs(p) then p[Weight := WeightOf(num, p)] else p;
    if HasGwpInputs(withWeight) then
      var withTotal := withWeight[GwpTotal := GwpTotalOf(num, withWeight)];
      if Present(withTotal, StageDReduction) then withTotal[NetGwp := NetGwpOf(num, withTotal)] else withTotal
    else withWeight
  }

  /** netGwp is never derived unless gwpTotal is derived by the same request. */
  lemma NetGwpNeedsTotal(num: NumberFormat, p: Payload)
    requires !Passes(p, DerivePayload(num, p), NetGwp)
    ensures HasGwpInputs(p)
    ensures DerivePayload(num, p)[GwpTotal] == GwpTotalOf(num, p)
  {
  }

  /** A derived column holds a decimal text, which its schema type accepts. */
  lemma DerivedColumnAccepted(num: NumberFormat, p: Payload, f: Field)
    requires forall g | g in p :: Accepts(g, p[g])
    requires f in DerivePayload(num, p)
    ensures Accepts(f, DerivePayload(num, p)[f])
  {
    var r := DerivePayload(num, p);
    if !IsDerived(f) || Passes(p, r, f) {
      assert f in p && r[f] == p[f];
    } else {
      assert r[f].Text? && KindOf(f) == DecimalKind;
    }
  }

  /** Derived values are decimal texts, so derivation keeps a payload valid for the schema. */
  lemma {:induction false} DeriveKeepsValid(num: NumberFormat, p: Payload, partial: bool)
    requires ValidPayload(p, partial)
    ensures ValidPayload(DerivePayload(num, p), partial)
  {
    var r := DerivePayload(num, p);
    forall f | f in r ensures Accepts(f, r[f]) {
      DerivedColumnAccepted(num, p, f);
    }
    assert Passes(p, r, Name) && Passes(p, r, Category);
  }

  /** The derived columns agree with their inputs. */
  predicate DerivedConsistent(num: NumberFormat, a: Payload) {
    && (HasWeightInputs(a) ==> Weight in a && a[Weight] == WeightOf(num, a))
    && (HasGwpInputs(a) ==> GwpTotal in a && a[GwpTotal] == GwpTotalOf(num, a))
    && (HasNetGwpInputs(a) ==> NetGwp in a && a[NetGwp] == NetGwpOf(num, a))
  }

  /** Deriving from a whole record leaves it consistent. */
  lemma {:induction false} DeriveEstablishesConsistency(num: NumberFormat, p: Payload)
    ensures DerivedConsistent(num, DerivePayload(num, p))
  {
    var r := DerivePayload(num, p);
    assert forall f | !IsDerived(f) :: Passes(p, r, f);
    assert Passes(p, r, Density) && Passes(p, r, Volume);
    assert Passes(p, r, GwpA1) && Passes(p, r, GwpA2) && Passes(p, r, GwpA3) && Passes(p, r, StageDReduction);
    assert HasWeightInputs(r) <==> HasWeightInputs(p);
    assert HasGwpInputs(r) <==> HasGwpInputs(p);
    assert HasNetGwpInputs(r) <==> HasNetGwpInputs(p);
  }

  /** Deriving twice gives what deriving once gives: derived columns are no inputs. */
  lemma {:induction false} DeriveIdempotent(num: NumberFormat, p: Payload)
    ensures DerivePayload(num, DerivePayload(num, p)) == DerivePayload(num, p)
  {
    var r := DerivePayload(num, p);
    var rr := DerivePayload(num, r);
    DeriveEstablishesConsistency(num, p);
    assert Passes(p, r, Density) && Passes(p, r, Volume) && Passes(p, r, GwpA1) && Passes(p, r, GwpA2);
    assert Passes(p, r, GwpA3) && Passes(p, r, StageDReduction);
    forall f ensures Passes(r, rr, f) {
      if IsDerived(f) {
        assert HasWeightInputs(r) <==> HasWeightInputs(p);
        assert HasGwpInputs(r) <==> HasGwpInputs(p);
        assert HasNetGwpInputs(r) <==> HasNetGwpInputs(p);
      }
    }
  }

  /** The fields derivation reads or writes. */
  predicate Involved(f: Field) {
    IsDerived(f) || f in {Density, Volume, GwpA1, GwpA2, GwpA3, StageDReduction}
  }

  /** Columns underneath a record that derivation never reads or writes do not disturb its consistency. */
  lemma {:induction false} ConsistentOverUnrelated(num: NumberFormat, base: Payload, r: Payload)
    requires forall f | f in base :: !Involved(f)
    requires DerivedConsistent(num, r)
    ensures DerivedConsistent(num, base + r)
  {
    var a := base + r;
    forall f | Involved(f) ensures Passes(r, a, f) {
      assert f !in base;
    }
    assert Passes(r, a, Density) && Passes(r, a, Volume) && Passes(r, a, Weight);
    assert Passes(r, a, GwpA1) && Passes(r, a, GwpA2) && Passes(r, a, GwpA3);
    assert Passes(r, a, StageDReduction) && Passes(r, a, GwpTotal) && Passes(r, a, NetGwp);
  }

  /**
   * A created passport is consistent: the column defaults (status, svhcFlag,
   * reachCompliance) are neither inputs nor outputs of derivation.
   */
  lemma CreatedPassportConsistent(num: NumberFormat, p: Payload)
    ensures DerivedConsistent(num, PassportDefaults + DerivePayload(num, p))
  {
    DeriveEstablishesConsistency(num, p);
    ConsistentOverUnrelated(num, PassportDefaults, DerivePayload(num, p));
  }

  /**
   * As written, a PUT that carries only `volume` keeps the stored weight: the
   * record made from density 2.5 and volume 4 still says weight 10 after its
   * volume becomes 2, and is no longer consistent.
   */
  lemma PartialPutLeavesWeightStale(num: NumberFormat)
    requires num.parse("2.5") == Finite(2.5) && num.parse("4") == Finite(4.0) && num.parse("2") == Finite(2.0)
    requires num.show(Finite(10.0)) == "10" && num.show(Finite(5.0)) == "5"
    ensures var created := map[Name := Text("Beam"), Category := Text("steel"), Density := Text("2.5"), Volume := Text("4")];
            var stored := PassportDefaults + DerivePayload(num, created);
            var updated := stored + DerivePayload(num, map[Volume := Text("2")]);
            stored[Weight] == Text("10") && updated[Weight] == Text("10") && !DerivedConsistent(num, updated)
  {
    var created := map[Name := Text("Beam"), Category := Text("steel"), Density := Text("2.5"), Volume := Text("4")];
    var stored := PassportDefaults + DerivePayload(num, created);
    var patch := map[Volume := Text("2")];
    var updated := stored + DerivePayload(num, patch);
    assert HasWeightInputs(created);
    assert stored[Weight] == Text(num.show(Finite(2.5 * 4.0)));
    assert !HasWeightInputs(patch);
    assert DerivePayload(num, patch) == patch by {
      assert forall f :: Passes(patch, DerivePayload(num, patch), f);
    }
    assert updated[Density] == Text("2.5") && updated[Volume] == Text("2");
    assert HasWeightInputs(updated);
    assert WeightOf(num, updated) == Text(num.show(Finite(2.5 * 2.0)));
  }

  /**
   * The intended update: derive from the stored record merged with the patch,
   * so every supplied column is kept and the derived columns are consistent
   * afterwards. The PUT handler's own "Auto-calculate weight from density and
   * volume" (routes.ts:128) asks for exactly that.
   */
  function DeriveOnMerged(num: NumberFormat, stored: Payload, patch: Payload): (r: Payload)
    requires WellFormed(stored) && ValidPayload(patch, true)
    ensures DerivedConsistent(num, stored + r)
    ensures forall f | f in patch && !IsDerived(f) :: f in r && r[f] == patch[f]
    ensures forall f | !IsDerived(f) :: Passes(stored + patch, r, f)
    ensures ValidPayload(r, true)
  {
    MergedIsConsistent(num, stored, patch);
    MergedIsValid(num, stored, patch);
    DerivePayload(num, stored + patch)
  }

  /** Deriving over the merged record covers every stored column, so the result is consistent over `stored`. */
  lemma MergedIsConsistent(num: NumberFormat, stored: Payload, patch: Payload)
    ensures DerivedConsistent(num, stored + DerivePayload(num, stored + patch))
  {
    var merged := stored + patch;
    var r := DerivePayload(num, merged);
    DeriveEstablishesConsistency(num, merged);
    assert forall f | f in merged :: f in r;
    assert stored + r == r;
  }

  /** The merged record of a stored row and a valid patch derives to a valid patch. */
  lemma MergedIsValid(num: NumberFormat, stored: Payload, patch: Payload)
    requires WellFormed(stored) && ValidPayload(patch, true)
    ensures ValidPayload(DerivePayload(num, stored + patch), true)
  {
    var merged := stored + patch;
    forall f | f in merged ensures Accepts(f, merged[f]) {
      if f in patch {
        assert merged[f] == patch[f];
      }
    }
    DeriveKeepsValid(num, merged, true);
  }

  /**
   * With the merged derivation, a PUT that carries only a new volume stores
   * the weight of the stored density times that volume.
   */
  lemma MergedPutRecomputesWeight(num: NumberFormat, stored: Payload, v: string)
    requires WellFormed(stored) && Present(stored, Density) && v != ""
    ensures var updated := stored + DeriveOnMerged(num, stored, map[Volume := Text(v)]);
            updated[Weight] == Text(num.show(Mul(num.parse(stored[Density].s), num.parse(v))))
  {
    var patch := map[Volume := Text(v)];
    var r := DeriveOnMerged(num, stored, patch);
    var updated := stored + r;
    assert Passes(stored + patch, r, Density) && Passes(stored + patch, r, Volume);
    assert updated[Density] == stored[Density] && updated[Volume] == Text(v);
  }

  /** As written, a PUT that carries only a new volume leaves whatever weight was stored. */
  lemma PartialPutKeepsStoredWeight(num: NumberFormat, stored: Payload, v: string)
    requires Weight in stored
    ensures (stored + DerivePayload(num, map[Volume := Text(v)]))[Weight] == stored[Weight]
  {
    var patch := map[Volume := Text(v)];
    assert !HasWeightInputs(patch);
    assert Passes(patch, DerivePayload(num, patch), Weight);
  }
}
