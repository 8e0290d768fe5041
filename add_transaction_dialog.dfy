/**
 * The add/edit form: its field state, the keystroke guard on the amount,
 * the validity rules and the save action. Amounts are read as cents.
 */
module AddTransactionDialog {
  import opened Wrappers
  import opened Text
  import opened Entity

  /** The nine names the category menu offers. */
  const Categories: seq<string> :=
    ["Food", "Transport", "Shopping", "Entertainment",
     "Bills", "Salary", "Health", "Education", "Other"]

  const DefaultCategory: string := "Food"

  // ---------------------------------------------------------------------
  // The amount pattern ^\d*\.?\d{0,2}$
  // ---------------------------------------------------------------------

  /** `\d` as Java SE's regular expressions read it: an ASCII digit. */
  predicate IsDigit(c: char) {
    '0' <= c <= '9'
  }

  predicate AllDigits(s: string) {
    forall i :: 0 <= i < |s| ==> IsDigit(s[i])
  }

  /**
   * The pattern as written, split at `i..j`: digits, then nothing or a
   * point, then at most two digits.
   */
  ghost predicate PatternSplit(s: string, i: int, j: int) {
    && 0 <= i <= j <= |s|
    && AllDigits(s[..i])
    && (s[i..j] == "" || s[i..j] == ".")
    && AllDigits(s[j..]) && |s| - j <= 2
  }

  ghost predicate MatchesAmountPattern(s: string) {
    exists i, j :: PatternSplit(s, i, j)
  }

  /** The length of the run of digits `s` starts with. */
  function LeadingDigits(s: string): (n: nat)
    ensures n <= |s| && AllDigits(s[..n])
    ensures n < |s| ==> !IsDigit(s[n])
  {
    if s != [] && IsDigit(s[0]) then
      var n := 1 + LeadingDigits(s[1..]);
      assert s[..n] == [s[0]] + s[1..][..n - 1];
      n
    else
      0
  }

  /** One left-to-right scan deciding the pattern. */
  predicate AcceptsAmountText(s: string) {
    var n := LeadingDigits(s);
    n == |s| || (s[n] == '.' && |s| - n <= 3 && AllDigits(s[n + 1..]))
  }

  /** The digits before the point (all of them when there is no point). */
  function Whole(s: string): (w: string)
    ensures AllDigits(w) && |w| <= |s| && w == s[..|w|]
  {
    s[..LeadingDigits(s)]
  }

  /** The digits after the point ("" when there is no point). */
  function Fraction(s: string): (f: string)
    ensures AcceptsAmountText(s) ==> AllDigits(f) && |f| <= 2
  {
    var n := LeadingDigits(s);
    if n < |s| then s[n + 1..] else ""
  }

  /** A run of digits followed by a non-digit (or nothing) is the leading run. */
  lemma {:induction false} LeadingDigitsOfNumber(ds: string, tail: string)
    requires AllDigits(ds) && (tail == [] || !IsDigit(tail[0]))
    ensures LeadingDigits(ds + tail) == |ds|
  {
    if ds == [] {
      assert ds + tail == tail;
    } else {
      assert (ds + tail)[1..] == ds[1..] + tail;
      LeadingDigitsOfNumber(ds[1..], tail);
    }
  }

  /** A text the scan accepts splits as the pattern requires. */
  lemma AcceptedTextMatchesPattern(s: string)
    requires AcceptsAmountText(s)
    ensures MatchesAmountPattern(s)
  {
    var n := LeadingDigits(s);
    if n == |s| {
      assert s[n..n] == "";
      assert PatternSplit(s, n, n);
    } else {
      assert s[n..n + 1] == ".";
      assert PatternSplit(s, n, n + 1);
    }
  }

  /** A split with nothing between the two runs is all digits, which the scan accepts. */
  lemma UnpointedSplitAccepted(s: string, i: int, j: int)
    requires PatternSplit(s, i, j) && s[i..j] == ""
    ensures AcceptsAmountText(s)
  {
    forall k | 0 <= k < |s| ensures IsDigit(s[k]) {
      if k < i { assert s[k] == s[..i][k]; } else { assert s[k] == s[j..][k - j]; }
    }
    assert s + [] == s;
    LeadingDigitsOfNumber(s, []);
  }

  /** A split at a point: the leading run ends at the point, which the scan accepts. */
  lemma PointedSplitAccepted(s: string, i: int, j: int)
    requires PatternSplit(s, i, j) && s[i..j] == "."
    ensures AcceptsAmountText(s)
  {
    assert s == s[..i] + s[i..];
    assert s[i..][0] == '.';
    LeadingDigitsOfNumber(s[..i], s[i..]);
    assert s[i + 1..] == s[j..];
  }

  /** The scan accepts exactly the texts the pattern matches. */
  lemma AmountScanMatchesPattern(s: string)
    ensures AcceptsAmountText(s) <==> MatchesAmountPattern(s)
  {
    if AcceptsAmountText(s) {
      AcceptedTextMatchesPattern(s);
    }
    if MatchesAmountPattern(s) {
      var i, j :| PatternSplit(s, i, j);
      if s[i..j] == "" {
        UnpointedSplitAccepted(s, i, j);
      } else {
        PointedSplitAccepted(s, i, j);
      }
    }
  }

  /**
   * The amount field's `onValueChange`: a proposed text is taken when it is
   * empty or matches the pattern; otherwise the field keeps its text.
   */
  function AcceptAmountEdit(current: string, proposed: string): (r: string)
    ensures MatchesAmountPattern(proposed) ==> r == proposed
    ensures !MatchesAmountPattern(proposed) ==> r == current
  {
    AmountScanMatchesPattern(proposed);
    if proposed == "" || AcceptsAmountText(proposed) then proposed else current
  }

  // ---------------------------------------------------------------------
  // Reading an amount: `toDouble`, in cents
  // ---------------------------------------------------------------------

  function DigitValue(c: char): nat
    requires IsDigit(c)
  {
    c as int - '0' as int
  }

  /** The number a string of decimal digits denotes (0 for the empty string). */
  function DecimalValue(ds: string): nat
    requires AllDigits(ds)
  {
    if ds == [] then 0 else DecimalValue(ds[..|ds| - 1]) * 10 + DigitValue(ds[|ds| - 1])
  }

  /** At most two decimals, as cents: ".5" is 50, ".05" is 5. */
  function FractionCents(f: string): nat
    requires AllDigits(f) && |f| <= 2
  {
    if |f| == 0 then 0
    else if |f| == 1 then 10 * DigitValue(f[0])
    else 10 * DigitValue(f[0]) + DigitValue(f[1])
  }

  predicate HasDigit(s: string) {
    exists i :: 0 <= i < |s| && IsDigit(s[i])
  }

  predicate HasNonZeroDigit(s: string) {
    exists i :: 0 <= i < |s| && '1' <= s[i] <= '9'
  }

  /**
   * `toDoubleOrNull`, in cents, for a text of the amount pattern: the whole
   * part times 100 plus the cents of at most two decimals.
   */
  function ParseAmount(s: string): (r: Option<int>)
    ensures r.Some? ==> AcceptsAmountText(s) && r.value >= 0
  {
    if !AcceptsAmountText(s) then None
    else if Whole(s) == "" && Fraction(s) == "" then None
    else Some(DecimalValue(Whole(s)) * 100 + FractionCents(Fraction(s)))
  }

  /** Each character of an accepted text is a whole digit, the point, or a decimal. */
  lemma AcceptedTextChar(s: string, k: int)
    requires AcceptsAmountText(s) && 0 <= k < |s|
    ensures var n := |Whole(s)|;
            || (k < n && s[k] == Whole(s)[k])
            || (k == n && s[k] == '.')
            || (k > n && s[k] == Fraction(s)[k - n - 1])
  {
  }

  /** An accepted text holds a digit exactly when its whole part or its decimals do. */
  lemma DigitsOfAcceptedText(s: string)
    requires AcceptsAmountText(s)
    ensures HasDigit(s) <==> Whole(s) != "" || Fraction(s) != ""
  {
    var n := |Whole(s)|;
    if HasDigit(s) {
      var k :| 0 <= k < |s| && IsDigit(s[k]);
      AcceptedTextChar(s, k);
    }
    if Whole(s) != "" {
      assert IsDigit(s[0]);
    }
    if Fraction(s) != "" {
      assert s[n + 1] == Fraction(s)[0];
    }
  }

  /** The same for a digit other than zero. */
  lemma NonZeroDigitsOfAcceptedText(s: string)
    requires AcceptsAmountText(s)
    ensures HasNonZeroDigit(s) <==> HasNonZeroDigit(Whole(s)) || HasNonZeroDigit(Fraction(s))
  {
    var n := |Whole(s)|;
    if HasNonZeroDigit(s) {
      var k :| 0 <= k < |s| && '1' <= s[k] <= '9';
      AcceptedTextChar(s, k);
    }
    if HasNonZeroDigit(Whole(s)) {
      var k :| 0 <= k < n && '1' <= Whole(s)[k] <= '9';
      assert s[k] == Whole(s)[k];
    }
    if HasNonZeroDigit(Fraction(s)) {
      var k :| 0 <= k < |Fraction(s)| && '1' <= Fraction(s)[k] <= '9';
      assert s[n + 1 + k] == Fraction(s)[k];
    }
  }

  /**
   * Only texts of the pattern are read, and such a text is read exactly
   * when it holds a digit: "" and "." are the unreadable ones.
   */
  lemma ParseAmountDomain(s: string)
    ensures ParseAmount(s).Some? ==> MatchesAmountPattern(s)
    ensures MatchesAmountPattern(s) ==> (ParseAmount(s).Some? <==> HasDigit(s))
  {
    AmountScanMatchesPattern(s);
    if AcceptsAmountText(s) {
      DigitsOfAcceptedText(s);
    }
  }

  /**
   * The value read from a text of the pattern with a digit, by the shape of
   * its split: a text without a point is all digits and reads as that many
   * units ("123" is 12300); a text with a point reads as the units before it
   * plus the cents after it, the units being 0 when nothing precedes the
   * point (".5" is 50).
   */
  lemma ParseAmountOfSplit(s: string, i: int, j: int)
    requires PatternSplit(s, i, j) && HasDigit(s)
    ensures s[i..j] == "" ==> AllDigits(s) && ParseAmount(s) == Some(DecimalValue(s) * 100)
    ensures s[i..j] == "." ==> ParseAmount(s) == Some(DecimalValue(s[..i]) * 100 + FractionCents(s[j..]))
  {
    if s[i..j] == "" {
      forall k | 0 <= k < |s| ensures IsDigit(s[k]) {
        if k < i { assert s[k] == s[..i][k]; } else { assert s[k] == s[j..][k - j]; }
      }
      assert s + [] == s;
      LeadingDigitsOfNumber(s, []);
      assert Whole(s) == s;
    } else {
      assert s == s[..i] + s[i..];
      assert s[i..][0] == '.';
      LeadingDigitsOfNumber(s[..i], s[i..]);
      assert Whole(s) == s[..i];
      assert Fraction(s) == s[j..];
      DigitsOfAcceptedText(s);
    }
  }

  // ---------------------------------------------------------------------
  // Validity
  // ---------------------------------------------------------------------

  /** `isTitleValid`: the title keeps some character once trimmed. */
  function IsTitleValid(title: string): (b: bool)
    ensures b <==> Trim(title) != []
  {
    !IsBlank(title)
  }

  /**
   * `isAmountValid`: not blank, readable, and above zero; for the texts the
   * field can hold, those with a digit other than zero.
   */
  function IsAmountValid(amount: string): (b: bool)
    ensures b <==> MatchesAmountPattern(amount) && HasNonZeroDigit(amount)
  {
    AmountReadIffNonZeroDigit(amount);
    && !IsBlank(amount)
    && ParseAmount(amount).Some?
    && ParseAmount(amount).value > 0
  }

  /** `isValid`: what enables the save button. */
  function IsValid(title: string, amount: string): (b: bool)
    ensures b <==> Trim(title) != [] && MatchesAmountPattern(amount) && HasNonZeroDigit(amount)
  {
    IsTitleValid(title) && IsAmountValid(amount)
  }

  lemma {:induction false} DecimalValuePositive(ds: string)
    requires AllDigits(ds)
    ensures DecimalValue(ds) > 0 <==> HasNonZeroDigit(ds)
  {
    if ds != [] {
      var init := ds[..|ds| - 1];
      DecimalValuePositive(init);
      if HasNonZeroDigit(init) {
        var k :| 0 <= k < |init| && '1' <= init[k] <= '9';
        assert ds[k] == init[k];
      }
      if HasNonZeroDigit(ds) {
        var k :| 0 <= k < |ds| && '1' <= ds[k] <= '9';
        if k < |ds| - 1 {
          assert init[k] == ds[k];
        }
      }
    }
  }

  lemma FractionCentsPositive(f: string)
    requires AllDigits(f) && |f| <= 2
    ensures FractionCents(f) > 0 <==> HasNonZeroDigit(f)
  {
    if |f| >= 1 && DigitValue(f[0]) > 0 {
      assert '1' <= f[0] <= '9';
    }
    if |f| == 2 && DigitValue(f[1]) > 0 {
      assert '1' <= f[1] <= '9';
    }
  }

  /** A text with a digit other than zero is not blank. */
  lemma NonZeroDigitNotBlank(s: string)
    ensures HasNonZeroDigit(s) ==> !IsBlank(s)
  {
    if HasNonZeroDigit(s) {
      var k :| 0 <= k < |s| && '1' <= s[k] <= '9';
      assert !IsWhitespace(s[k]);
    }
  }

  /**
   * A text is read as an amount above zero, and is not blank, exactly when it
   * matches the pattern and some digit of it is not zero: "0", "00.00" and
   * "." are refused, "0.01" is taken.
   */
  lemma AmountReadIffNonZeroDigit(s: string)
    ensures (!IsBlank(s) && ParseAmount(s).Some? && ParseAmount(s).value > 0)
            <==> MatchesAmountPattern(s) && HasNonZeroDigit(s)
  {
    AmountScanMatchesPattern(s);
    if AcceptsAmountText(s) {
      NonZeroDigitsOfAcceptedText(s);
      DecimalValuePositive(Whole(s));
      FractionCentsPositive(Fraction(s));
      NonZeroDigitNotBlank(s);
    }
  }

  // ---------------------------------------------------------------------
  // The form
  // ---------------------------------------------------------------------

  /** The arguments of `onSave(title, amount, category, isExpense, note)`. */
  datatype SaveRequest = SaveRequest(title: string, amount: int, category: string,
                                     isExpense: bool, note: string)

  class EntryForm {
    var title: string
    var amount: string
    var category: string
    var isExpense: bool
    var note: string
    var showCategoryMenu: bool

    /**
     * Opens the form on `editing`'s fields, or on the blank defaults when
     * adding. `prefilledAmount` is the platform's text of the edited amount
     * (`Double.toString`); it is not used when adding.
     */
    constructor Open(editing: Option<Transaction>, prefilledAmount: string)
      ensures editing.None? ==>
                title == "" && amount == "" && category == DefaultCategory
                && isExpense && note == ""
      ensures editing.Some? ==>
                title == editing.value.title && amount == prefilledAmount
                && category == editing.value.category
                && isExpense == editing.value.isExpense && note == editing.value.note
      ensures !showCategoryMenu
    {
      showCategoryMenu := false;
      match editing
      case None =>
        title, amount, category, isExpense, note := "", "", DefaultCategory, true, "";
      case Some(t) =>
        title, amount, category, isExpense, note := t.title, prefilledAmount, t.category, t.isExpense, t.note;
    }

    method OnTitleChange(text: string)
      modifies this`title
      ensures title == text
    {
      title := text;
    }

    /** The guarded amount update: a text of the pattern stays one. */
    method OnAmountChange(text: string)
      modifies this`amount
      ensures amount == AcceptAmountEdit(old(amount), text)
      ensures MatchesAmountPattern(old(amount)) ==> MatchesAmountPattern(amount)
    {
      amount := AcceptAmountEdit(amount, text);
    }

    /** `onExpandedChange` of the dropdown. */
    method OnCategoryMenuExpandedChange(expanded: bool)
      modifies this`showCategoryMenu
      ensures showCategoryMenu == expanded
    {
      showCategoryMenu := expanded;
    }

    /** `onDismissRequest` of the dropdown. */
    method DismissCategoryMenu()
      modifies this`showCategoryMenu
      ensures !showCategoryMenu
    {
      showCategoryMenu := false;
    }

    /** Clicking the menu's `k`-th item: one of the nine names, menu closed. */
    method SelectCategory(k: nat)
      requires k < |Categories|
      modifies this`category, this`showCategoryMenu
      ensures category == Categories[k] && category in Categories
      ensures !showCategoryMenu
    {
      category := Categories[k];
      showCategoryMenu := false;
    }

    method SelectIncome()
      modifies this`isExpense
      ensures !isExpense
    {
      isExpense := false;
    }

    method SelectExpense()
      modifies this`isExpense
      ensures isExpense
    {
      isExpense := true;
    }

    method OnNoteChange(text: string)
      modifies this`note
      ensures note == text
    {
      note := text;
    }

    /** Whether the save button is enabled. */
    function SaveEnabled(): (b: bool)
      reads this
      ensures b <==> Trim(title) != [] && MatchesAmountPattern(amount) && HasNonZeroDigit(amount)
    {
      IsValid(title, amount)
    }

    /**
     * The save button: only a valid form is saved, with title and note
     * trimmed and category and type passed through. The saved title is
     * never blank and the saved amount is above zero.
     */
    method Save() returns (request: Option<SaveRequest>)
      ensures request.Some? <==> IsValid(title, amount)
      ensures request.Some? ==>
                && ParseAmount(amount) == Some(request.value.amount)
                && request.value == SaveRequest(Trim(title), request.value.amount,
                                                category, isExpense, Trim(note))
      ensures request.Some? ==> !IsBlank(request.value.title) && request.value.amount > 0
    {
      if IsValid(title, amount) {
        request := Some(SaveRequest(Trim(title), ParseAmount(amount).value,
                                    category, isExpense, Trim(note)));
      } else {
        request := None;
      }
    }
  }

  // ---------------------------------------------------------------------
  // The edit prefill
  // ---------------------------------------------------------------------

  function DigitChar(d: nat): (c: char)
    requires d < 10
    ensures IsDigit(c) && DigitValue(c) == d
  {
    ('0' as int + d) as char
  }

  /** Decimal digits of `n`, without leading zeros ("0" for zero). */
  function DecimalDigits(n: nat): (ds: string)
    ensures ds != [] && AllDigits(ds) && DecimalValue(ds) == n
    decreases n
  {
    if n < 10 then [DigitChar(n)]
    else
      var ds := DecimalDigits(n / 10) + [DigitChar(n % 10)];
      assert ds[..|ds| - 1] == DecimalDigits(n / 10);
      ds
  }

  /**
   * The plain form in which `Double.toString` writes an amount of `cents`
   * below ten million units: whole part, a point, and one or two decimals
   * ("100.0", "100.5", "100.05"). Saving an edit whose amount text was left
   * as prefilled keeps the amount.
   */
  function DecimalText(cents: nat): (r: string)
    ensures MatchesAmountPattern(r)
    ensures ParseAmount(r) == Some(cents)
  {
    var whole := DecimalDigits(cents / 100);
    var f := cents % 100;
    var fraction: string :=
      if f % 10 == 0 then [DigitChar(f / 10)] else [DigitChar(f / 10), DigitChar(f % 10)];
    ParsePointedAmount(whole, fraction);
    assert FractionCents(fraction) == f;
    whole + "." + fraction
  }

  /** "whole.fraction" splits at the point into `whole` and `fraction`. */
  lemma SplitPointedText(whole: string, fraction: string)
    requires AllDigits(whole) && AllDigits(fraction) && |fraction| <= 2
    ensures var s := whole + "." + fraction;
            LeadingDigits(s) == |whole| && s[|whole|] == '.' && s[|whole| + 1..] == fraction
            && Whole(s) == whole
  {
    var s := whole + "." + fraction;
    assert s == whole + ("." + fraction);
    LeadingDigitsOfNumber(whole, "." + fraction);
    assert s[..|whole|] == whole;
  }

  /** A text "whole.fraction" reads as whole units and the fraction's cents. */
  lemma ParsePointedAmount(whole: string, fraction: string)
    requires whole != [] && AllDigits(whole) && AllDigits(fraction) && |fraction| <= 2
    ensures MatchesAmountPattern(whole + "." + fraction)
    ensures ParseAmount(whole + "." + fraction) == Some(DecimalValue(whole) * 100 + FractionCents(fraction))
  {
    var s := whole + "." + fraction;
    SplitPointedText(whole, fraction);
    assert Fraction(s) == fraction;
    assert AcceptsAmountText(s);
    ParseSplitText(s);
    AcceptedTextMatchesPattern(s);
  }

  /** An accepted text with a whole part reads as its whole units and its decimals' cents. */
  lemma ParseSplitText(s: string)
    requires AcceptsAmountText(s) && Whole(s) != ""
    ensures ParseAmount(s) == Some(DecimalValue(Whole(s)) * 100 + FractionCents(Fraction(s)))
  {
  }
}
