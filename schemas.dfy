/** The product form schemas of the API (apps/api/src/lib/schemas.ts): the price
    format, the non-empty string fields, and the transform that turns the
    uploaded `images` / `newImages` form value into a list. */
module Schemas {
  import opened Text
  import opened Wrappers

  /** The price pattern `^\d+(\.\d{2})?$`: one or more digits, optionally
      followed by a dot and exactly two digits. */
  predicate IsPrice(s: string)
  {
    || (|s| >= 1 && IsDigits(s))
    || (|s| >= 4 && IsDigits(s[..|s| - 3]) && s[|s| - 3] == '.'
        && IsDigit(s[|s| - 2]) && IsDigit(s[|s| - 1]))
  }

  /** A price string as the validator admits it into the product table. */
  type Price = s: string | IsPrice(s) witness "0"

  /** An independent reading of a price string: scan the whole-units digits up to
      the first dot, then exactly two digits of cents. The amount is in cents. */
  function ParsePrice(s: string): (r: Option<nat>)
  {
    var k := IndexOf(s, '.');
    if k == 0 || !IsDigits(s[..k]) then None
    else if k == |s| then Some(DigitsValue(s) * 100)
    else if |s| == k + 3 && IsDigit(s[k + 1]) && IsDigit(s[k + 2])
    then Some(DigitsValue(s[..k]) * 100 + DigitValue(s[k + 1]) * 10 + DigitValue(s[k + 2]))
    else None
  }

  /** The pattern and the scanner accept exactly the same strings. */
  lemma IsPriceIffParses(s: string)
    ensures IsPrice(s) <==> ParsePrice(s).Some?
  {
    var k := IndexOf(s, '.');
    if IsPrice(s) {
      if !(|s| >= 1 && IsDigits(s)) {
        IndexOfAtMost(s, '.', |s| - 3);
        assert forall i :: 0 <= i < |s| - 3 ==> s[i] == s[..|s| - 3][i];
        IndexOfAtLeast(s, '.', |s| - 3);
      } else {
        IndexOfAtLeast(s, '.', |s|);
        assert s[..k] == s;
      }
    }
    if ParsePrice(s).Some? {
      if k == |s| {
        assert s[..k] == s;
      } else {
        assert s[..|s| - 3] == s[..k];
      }
    }
  }

  /** The cents of a valid price. */
  function PriceCents(p: Price): (c: nat)
    ensures ParsePrice(p) == Some(c)
  {
    IsPriceIffParses(p);
    ParsePrice(p).value
  }

  /** `amount.toFixed(2)` for an exact amount of cents: whole units, a dot, two
      digits of cents. */
  function FormatCents(c: nat): (s: string)
  {
    NatToString(c / 100) + "." + [DigitChar(c % 100 / 10), DigitChar(c % 10)]
  }

  /** A rendered amount is a valid price and reads back as the same amount. */
  lemma FormatCentsRoundTrip(c: nat)
    ensures IsPrice(FormatCents(c))
    ensures ParsePrice(FormatCents(c)) == Some(c)
  {
    var whole := NatToString(c / 100);
    var s := FormatCents(c);
    assert s[..|whole|] == whole;
    assert s[|whole|] == '.';
    IndexOfAtMost(s, '.', |whole|);
    IndexOfAtLeast(s, '.', |whole|);
    DigitsValueOfNatToString(c / 100);
    assert s[..|s| - 3] == whole;
    IsPriceIffParses(s);
  }

  /** The create schema's `price`: `min(1)` and the pattern. */
  predicate CreatePriceValid(s: string) { |s| >= 1 && IsPrice(s) }

  /** The `min(1)` on the create schema's price adds nothing to the pattern. */
  lemma PriceMinLengthRedundant(s: string)
    ensures CreatePriceValid(s) <==> IsPrice(s)
  {
  }

  /** The create schema's `stockQuantity`: a non-empty string. */
  function CreateStockQuantityValid(s: string): (ok: bool)
    ensures ok <==> s != []
  {
    |s| >= 1
  }

  /** A multipart form value: missing, an explicit null, one value or several. */
  datatype FormValue<T> = Undefined | Null | One(item: T) | Many(items: seq<T>)

  /** The `images` transform: always a list. */
  function NormaliseImages<T>(v: FormValue<T>): (r: seq<T>)
    ensures (v.Undefined? || v.Null?) ==> r == []
    ensures v.One? ==> r == [v.item]
    ensures v.Many? ==> r == v.items
  {
    match v
    case Undefined => []
    case Null => []
    case One(x) => [x]
    case Many(xs) => xs
  }

  /** The `newImages` transform of the update schema: the same three cases. */
  function NormaliseNewImages<T>(v: FormValue<T>): (r: seq<T>)
    ensures r == NormaliseImages(v)
  {
    if v.Undefined? || v.Null? then [] else if v.One? then [v.item] else v.items
  }

  /** Normalising is idempotent: a list goes through unchanged. */
  lemma NormaliseImagesIdempotent<T>(v: FormValue<T>)
    ensures NormaliseImages(Many(NormaliseImages(v))) == NormaliseImages(v)
  {
  }

  /** An entry of the `sizes` / `colors` lists. */
  datatype InStockEntry = InStockEntry(name: string, inStock: bool)

  /** The in-stock entry schema: the name must be non-empty, else "Name is required". */
  function ValidateInStockEntry(e: InStockEntry): (r: Option<string>)
    ensures r.None? <==> e.name != []
    ensures r.Some? ==> r.value == "Name is required"
  {
    if |e.name| >= 1 then None else Some("Name is required")
  }
}
