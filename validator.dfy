/**
 * CategoryValidator: the rule on a category's name, checked in order with
 * an early return after the first violation, so that at most one error is
 * reported. Only the name is examined.
 */
module CategoryValidator {
  import opened Wrappers
  import opened Exceptions
  import opened Text
  import opened Handlers
  import opened Categories

  const MIN_NAME_LENGTH: nat := 3
  const MAX_NAME_LENGTH: nat := 255

  const NULL_NAME := ErrorMessage("O nome da categoria não pode ser nulo")
  const BLANK_NAME := ErrorMessage("O nome da categoria não pode ser vazio")
  /** Built, as the source builds it, from the two limits written in decimal. */
  const NAME_LENGTH := ErrorMessage("O nome da categoria deve ter entre " + Decimal(MIN_NAME_LENGTH)
                                    + " e " + Decimal(MAX_NAME_LENGTH) + " caracteres")

  /** The length message spells the limits out as 3 and 255. */
  lemma NameLengthText()
    ensures NAME_LENGTH.message == "O nome da categoria deve ter entre 3 e 255 caracteres"
  {
    LimitsInDecimal();
  }

  /** The two limits written in decimal. */
  lemma LimitsInDecimal()
    ensures Decimal(MIN_NAME_LENGTH) == "3" && Decimal(MAX_NAME_LENGTH) == "255"
  {
    assert Decimal(25) == Decimal(2) + "5";
    assert Decimal(255) == Decimal(25) + "5";
  }

  /**
   * The rule as a function of the name alone: the one error it reports, if
   * any. A name passes exactly when it is not null and its trimmed length,
   * counted in UTF-16 code units as Java counts it, lies within the
   * inclusive bounds; a blank name always gets the blank
   * message, never the length message.
   */
  function NameError(name: Option<string>): (r: Option<ErrorMessage>)
    ensures r.None? <==> name.Some? && MIN_NAME_LENGTH <= Utf16Length(Trim(name.value)) <= MAX_NAME_LENGTH
    ensures r == Some(NULL_NAME) <==> name.None?
    ensures r == Some(BLANK_NAME) <==> name.Some? && IsBlank(name.value)
    ensures r == Some(NAME_LENGTH) <==>
              name.Some? && 0 < |Trim(name.value)| && !(MIN_NAME_LENGTH <= Utf16Length(Trim(name.value)) <= MAX_NAME_LENGTH)
  {
    if name.None? then Some(NULL_NAME)
    else if IsBlank(name.value) then Some(BLANK_NAME)
    else
      var nameLength := Utf16Length(Trim(name.value));
      if nameLength < MIN_NAME_LENGTH || nameLength > MAX_NAME_LENGTH then Some(NAME_LENGTH) else None
  }

  /** The names the source's tests use, and what the rule says of each. */
  lemma NullNameRejected()
    ensures NameError(None) == Some(NULL_NAME)
  {
  }

  lemma EmptyNameRejected()
    ensures NameError(Some("")) == Some(BLANK_NAME)
  {
  }

  lemma BlankNameRejected()
    ensures NameError(Some("  ")) == Some(BLANK_NAME)
  {
    assert IsBlank("  ") by { assert IsWhitespace("  "[0]) && IsWhitespace("  "[1]); }
  }

  lemma ShortNameRejected()
    ensures NameError(Some("ab")) == Some(NAME_LENGTH)
  {
    SolidNameJudgedByLength(['a', 'b']);
    Utf16LengthOfPair('a', 'b');
  }

  lemma LongNameRejected()
    ensures NameError(Some(seq(256, _ => 'a'))) == Some(NAME_LENGTH)
  {
    SolidNameJudgedByLength(seq(256, _ => 'a'));
  }

  lemma ValidNameAccepted()
    ensures NameError(Some("Valid Category")) == None
  {
    SolidNameJudgedByLength("Valid Category");
  }

  /**
   * The bound is on UTF-16 code units, not characters: two characters above
   * U+FFFF make four units and pass, although they are only two characters.
   */
  lemma SupplementaryCharactersCountTwice()
    ensures NameError(Some(['\U{1F600}', '\U{1F600}'])) == None
  {
    SolidNameJudgedByLength(['\U{1F600}', '\U{1F600}']);
    Utf16LengthOfPair('\U{1F600}', '\U{1F600}');
  }

  /** A name with solid ends is judged by its UTF-16 length alone. */
  lemma SolidNameJudgedByLength(s: string)
    requires s != [] && !IsWhitespace(s[0]) && !IsWhitespace(s[|s| - 1])
    ensures NameError(Some(s)) == if MIN_NAME_LENGTH <= Utf16Length(s) <= MAX_NAME_LENGTH then None else Some(NAME_LENGTH)
  {
    TrimKeepsSolidEnds(s);
    var n := Utf16Length(s);
    assert Utf16Length(Trim(s)) == n && 0 < |Trim(s)|;
  }

  /**
   * checkNameConstraints(): the null check, the blank check, then the
   * length check, each reporting through the handler and returning early.
   * Through a notification nothing is thrown and at most one error is
   * added; through the fail-fast handler the first error is thrown. The
   * category itself is left as it was.
   */
  method CheckNameConstraints(category: Category, handler: Handler) returns (r: Outcome<()>)
    modifies Footprint(handler)
    ensures unchanged(category)
    ensures handler.Notifying? ==> r == Ok(())
    ensures handler.Notifying? ==>
              handler.notification.errors == old(handler.notification.errors) + OptionToSeq(NameError(category.name))
    ensures handler.Throwing? ==> (r.Fail? <==> NameError(category.name).Some?)
    ensures handler.Throwing? && r.Fail? ==>
              r.failure.Domain? && ErrorsOf(r.failure) == [NameError(category.name).value]
              && MessageOf(r.failure) == NameError(category.name).value.message
  {
    var name := category.name;
    if name.None? {
      var appended := Append(handler, NULL_NAME);
      return Done(appended);
    }
    if IsBlank(name.value) {
      var appended := Append(handler, BLANK_NAME);
      return Done(appended);
    }
    var nameLength := Utf16Length(Trim(category.name.value));
    if nameLength < MIN_NAME_LENGTH || nameLength > MAX_NAME_LENGTH {
      var appended := Append(handler, NAME_LENGTH);
      return Done(appended);
    }
    r := Ok(());
  }

  /** A void call: whatever an append gave back is dropped, what it threw is kept. */
  function Done(appended: Outcome<Handler>): (r: Outcome<()>)
    ensures r.Fail? <==> appended.Fail?
    ensures r.Fail? ==> r.failure == appended.failure
  {
    if appended.Fail? then Fail(appended.failure) else Ok(())
  }

  /** Category.validate(handler): runs the category's validator with that handler. */
  method Validate(category: Category, handler: Handler) returns (r: Outcome<()>)
    modifies Footprint(handler)
    ensures unchanged(category)
    ensures handler.Notifying? ==> r == Ok(())
    ensures handler.Notifying? ==>
              handler.notification.errors == old(handler.notification.errors) + OptionToSeq(NameError(category.name))
    ensures handler.Throwing? ==> (r.Fail? <==> NameError(category.name).Some?)
    ensures handler.Throwing? && r.Fail? ==>
              r.failure.Domain? && ErrorsOf(r.failure) == [NameError(category.name).value]
              && MessageOf(r.failure) == NameError(category.name).value.message
  {
    r := CheckNameConstraints(category, handler);
  }
}
