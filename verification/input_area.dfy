/** The composer: when typed text is submitted, what is submitted, and what
    is left in the box afterwards. */
module InputArea {
  import opened Wrappers
  import opened Strings

  /** The composer's `disabled` property; the welcome screen passes none,
      which reads as `false`. */
  datatype Composer = Composer(input: string, disabled: bool)

  /** The effect of a submit attempt: the box contents afterwards and the
      text handed to `onSend`, if any. */
  datatype Submit = Submit(input: string, sent: Option<string>)

  /** A keyboard event as far as the composer looks at it. */
  datatype KeyEvent = KeyEvent(key: string, shiftKey: bool)

  /** What a key press does: a submit attempt, and whether the browser's
      default action (a newline in the text area) is suppressed. */
  datatype KeyOutcome = KeyOutcome(submit: Submit, preventDefault: bool)

  /** `handleSend`: submit the trimmed input unless it is blank or the
      composer is disabled; a successful submit empties the box. */
  function HandleSend(c: Composer): (r: Submit)
    ensures r.sent.Some? <==> Trim(c.input) != "" && !c.disabled
    ensures r.sent.Some? ==> r.sent.value == Trim(c.input) && r.input == ""
    ensures r.sent.None? ==> r.input == c.input
  {
    var trimmed := Trim(c.input);
    if trimmed != "" && !c.disabled then Submit("", Some(trimmed)) else Submit(c.input, None)
  }

  /** Whatever the composer hands on is non-empty and has no whitespace at
      either end, and submitting it again from the emptied box sends
      nothing. */
  lemma SentTextIsClean(c: Composer)
    ensures var r := HandleSend(c);
      r.sent.Some? ==>
        && r.sent.value != ""
        && IsTrimmed(r.sent.value)
        && Trim(r.sent.value) == r.sent.value
        && HandleSend(c.(input := r.input)).sent.None?
  {
    var r := HandleSend(c);
    if r.sent.Some? {
      TrimmedIsFixed(r.sent.value);
      TrimmedIsFixed("");
    }
  }

  /** `handleKeyDown`: Enter without Shift submits and suppresses the
      newline; every other key, Shift+Enter included, is left to the
      text area. */
  function HandleKeyDown(c: Composer, e: KeyEvent): (r: KeyOutcome)
    ensures r.preventDefault <==> e.key == "Enter" && !e.shiftKey
    ensures r.preventDefault ==> r.submit == HandleSend(c)
    ensures !r.preventDefault ==> r.submit == Submit(c.input, None)
  {
    if e.key == "Enter" && !e.shiftKey then KeyOutcome(HandleSend(c), true)
    else KeyOutcome(Submit(c.input, None), false)
  }

  /** A key press submits exactly when it is Enter without Shift and the
      send button is enabled, so the keyboard and the button agree. */
  lemma KeyDownSendsLikeButton(c: Composer, e: KeyEvent)
    ensures HandleKeyDown(c, e).submit.sent.Some? <==>
      e.key == "Enter" && !e.shiftKey && SendButtonEnabled(c)
    ensures HandleKeyDown(c, e).submit.sent.Some? ==>
      HandleKeyDown(c, e).submit == HandleSend(c)
  {
    ButtonEnabledIffSends(c);
  }

  /** The send button is enabled when the input is not blank and the
      composer is not disabled. */
  predicate SendButtonEnabled(c: Composer) {
    !(Trim(c.input) == "" || c.disabled)
  }

  /** The button is enabled exactly when pressing it would send. */
  lemma ButtonEnabledIffSends(c: Composer)
    ensures SendButtonEnabled(c) <==> HandleSend(c).sent.Some?
  {
  }
}
