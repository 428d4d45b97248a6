/**
 * The partner bar (`src/components/Partners.tsx`): one logo button per partner,
 * some logos drawn round, and a click that hands the partner to the page.
 */
module Partners {
  import opened Types

  /** Logos at positions 2 to 5, 7 and 8 are drawn circular. */
  predicate ShouldBeCircular(index: int)
  {
    (index >= 2 && index <= 5) || index == 7 || index == 8
  }

  /** The circular positions are exactly {2, 3, 4, 5, 7, 8}; every position from 9 on is square. */
  lemma CircularPositions(index: int)
    ensures ShouldBeCircular(index) <==> index in {2, 3, 4, 5, 7, 8}
    ensures index in {0, 1, 6} || index >= 9 ==> !ShouldBeCircular(index)
  {
  }

  /** One rendered button: the partner it belongs to and whether its logo is round. */
  datatype PartnerButton = PartnerButton(partner: Partner, circular: bool)

  /** `partners.map((partner, index) => <button …>)`. */
  function PartnerButtons(partners: seq<Partner>): (buttons: seq<PartnerButton>)
    ensures |buttons| == |partners|
    ensures forall i :: 0 <= i < |partners| ==>
      buttons[i].partner == partners[i] && (buttons[i].circular <==> ShouldBeCircular(i))
  {
    seq(|partners|, i requires 0 <= i < |partners| => PartnerButton(partners[i], ShouldBeCircular(i)))
  }

  /** The `onClick` of the `i`-th rendered button: the partner it passes to `onPartnerClick`. */
  function ClickedPartner(partners: seq<Partner>, i: nat): (p: Partner)
    requires i < |partners|
    ensures p == partners[i]
  {
    PartnerButtons(partners)[i].partner
  }
}
