/** A card of the public feed: its link, its two-digit number, and what it shows. */
module BlogCard {
  import opened Wrappers
  import opened Decimal

  /** JavaScript's `s.padStart(target, fill)` for a one-character fill. */
  function PadStart(s: string, target: nat, fill: char): (r: string)
    ensures |r| == if |s| >= target then |s| else target
    ensures r[|r| - |s|..] == s
    ensures forall i :: 0 <= i < |r| - |s| ==> r[i] == fill
  {
    if |s| >= target then s else seq(target - |s|, _ => fill) + s
  }

  /** The card's number: `String(index + 1).padStart(2, '0')`, a numeral of at least two digits. */
  function Label(index: nat): (l: string)
    ensures |l| >= 2 && AllDigits(l)
  {
    PadStart(FromNat(index + 1), 2, '0')
  }

  lemma LabelSingleDigit(index: nat)
    requires index + 1 < 10
    ensures Label(index) == ['0', DigitChar(index + 1)]
  {
  }

  lemma LabelManyDigits(index: nat)
    requires index + 1 >= 10
    ensures Label(index) == FromNat(index + 1)
  {
  }

  /** The label is a numeral whose value is the card's position counted from one. */
  lemma LabelValue(index: nat)
    ensures AllDigits(Label(index)) && ToNat(Label(index)) == index + 1
  {
    var digits := FromNat(index + 1);
    ToNatFromNat(index + 1);
    if |digits| < 2 {
      ToNatLeadingZero(digits);
      assert Label(index) == "0" + digits;
    }
  }

  datatype CardImage = CardImage(src: string, alt: string)

  datatype Card = Card(
    href: string,
    number: string,
    image: Option<CardImage>,
    title: string,
    excerpt: Option<string>,
    date: string)

  /** The card as rendered; `imageUrl` is None when the prop is not given. */
  function Render(id: string, title: string, excerpt: string, publishedAt: string,
                  imageUrl: Option<string>, index: nat): (c: Card)
    ensures c.href == "/blog/" + id && c.number == Label(index) && c.title == title
    ensures c.image.Some? <==> imageUrl.Some? && imageUrl.value != ""
    ensures c.image.Some? ==> c.image.value == CardImage(imageUrl.value, title)
    ensures c.excerpt.Some? <==> excerpt != ""
    ensures c.excerpt.Some? ==> c.excerpt.value == excerpt
  {
    Card("/blog/" + id, Label(index),
         if imageUrl.Some? && imageUrl.value != "" then Some(CardImage(imageUrl.value, title)) else None,
         title,
         if excerpt != "" then Some(excerpt) else None,
         publishedAt)
  }
}
