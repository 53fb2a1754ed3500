/** The `TrackOrderPage` lookup form: a ticket or order number is typed in, checked,
    and turned into the address of the order's page. The short delay before navigating
    is taken as immediate. */
module TrackOrder {
  import opened Types
  import opened Text

  const EMPTY_INPUT := "Please enter a ticket/order number"
  const ORDER_PREFIX := "/order/"

  /** Where a submitted input leads: nowhere for a blank input, otherwise the order
      route followed by the trimmed input, unencoded. */
  function LookupPath(input: string): (path: Option<string>)
    ensures path.None? <==> IsBlank(input)
    ensures path.Some? ==>
              && |path.value| > |ORDER_PREFIX|
              && path.value[..|ORDER_PREFIX|] == ORDER_PREFIX
              && path.value[|ORDER_PREFIX|..] == Trim(input)
              && !IsWhitespace(path.value[|ORDER_PREFIX|])
              && !IsWhitespace(path.value[|path.value| - 1])
  {
    TrimEmptyIffBlank(input);
    var trimmed := Trim(input);
    if trimmed == [] then None else Some(ORDER_PREFIX + trimmed)
  }

  /** Surrounding whitespace typed around a number does not change where it leads. */
  lemma {:induction false} LookupIgnoresSurroundingSpace(input: string, pad: string)
    requires IsBlank(pad) && input != [] && Trim(input) == input
    ensures LookupPath(pad + input + pad) == Some(ORDER_PREFIX + input)
  {
    var padded := pad + input + pad;
    TrimOfPadded(pad, input);
    assert Trim(padded) == input;
    TrimEmptyIffBlank(padded);
  }

  /** Trimming removes blank padding on both sides of an already trimmed string. */
  lemma {:induction false} TrimOfPadded(pad: string, s: string)
    requires IsBlank(pad) && Trim(s) == s && s != []
    ensures Trim(pad + s + pad) == s
  {
    TrimStartSkipsBlank(pad, s + pad);
    assert pad + s + pad == pad + (s + pad);
    assert TrimStart(s + pad) == s + pad by {
      TrimmedStartsSolid(s);
    }
    TrimEndSkipsBlank(s, pad);
  }

  /** `TrimStart` drops a blank prefix in front of a string starting with a
      non-whitespace character. */
  lemma {:induction false} TrimStartSkipsBlank(pad: string, rest: string)
    requires IsBlank(pad) && rest != [] && !IsWhitespace(rest[0])
    ensures TrimStart(pad + rest) == TrimStart(rest)
    decreases |pad|
  {
    if pad != [] {
      assert (pad + rest)[1..] == pad[1..] + rest;
      TrimStartSkipsBlank(pad[1..], rest);
    }
  }

  /** `TrimEnd` drops a blank suffix behind a string ending in a non-whitespace
      character. */
  lemma {:induction false} TrimEndSkipsBlank(s: string, pad: string)
    requires IsBlank(pad) && s != [] && !IsWhitespace(s[|s| - 1])
    ensures TrimEnd(s + pad) == TrimEnd(s)
    decreases |pad|
  {
    if pad != [] {
      var front := pad[..|pad| - 1];
      assert (s + pad)[..|s + pad| - 1] == s + front;
      TrimEndSkipsBlank(s, front);
    }
  }

  /** A trimmed non-empty string starts and ends with a non-whitespace character, and
      trimming it again changes nothing at either end. */
  lemma TrimmedStartsSolid(s: string)
    requires Trim(s) == s && s != []
    ensures !IsWhitespace(s[0]) && !IsWhitespace(s[|s| - 1])
    ensures TrimStart(s) == s && TrimEnd(s) == s
  {
  }

  /** The page's state. */
  class Lookup {
    var orderNumber: string
    var error: Option<string>
    var isSubmitting: bool

    constructor ()
      ensures orderNumber == "" && error.None? && !isSubmitting
    {
      orderNumber := "";
      error := None;
      isSubmitting := false;
    }

    /** Typing into the input. */
    method SetOrderNumber(value: string)
      modifies this
      ensures orderNumber == value && error == old(error) && isSubmitting == old(isSubmitting)
    {
      orderNumber := value;
    }

    /** `handleSubmit`: a blank input sets the error and goes nowhere; otherwise the
        error is cleared, the form shows that it is submitting, and the page navigates
        to `target`. */
    method HandleSubmit() returns (target: Option<string>)
      modifies this
      ensures target == LookupPath(orderNumber)
      ensures orderNumber == old(orderNumber)
      ensures target.None? ==> error == Some(EMPTY_INPUT) && isSubmitting == old(isSubmitting)
      ensures target.Some? ==> error.None? && isSubmitting
    {
      var input := orderNumber;
      target := LookupPath(input);
      if target.None? {
        error := Some(EMPTY_INPUT);
      } else {
        error := None;
        isSubmitting := true;
      }
      assert orderNumber == input;
    }

    /** The clear button, shown only while the input is non-empty. */
    method ClearInput()
      requires orderNumber != ""
      modifies this
      ensures orderNumber == "" && error == old(error) && isSubmitting == old(isSubmitting)
    {
      orderNumber := "";
    }
  }
}
