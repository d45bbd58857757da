/** The library's exception class `Error` of `ergani/exceptions.py`, with
    its two subclasses told apart by `kind`. Converting an error to a string
    fills in a default message on first use and stores it in the object, so
    the class keeps `message` as a mutable field. */
module Exceptions {
  import opened Text
  import opened Runtime

  const ServiceUnavailable: string := "Service unavailable, please try again later"
  const CheckInputs: string := "Please check your inputs and try again"

  /** The response is present and true: the condition under which `__str__`
      mentions the status code and may default the message. */
  predicate TruthyResponse(response: Option<Response>) {
    response.Some? && response.value.ok
  }

  /** The message after `__str__` has run once on an error holding `message`
      and `response`. A false message is replaced only for a true response,
      and only for status 400 or a status of 500 or more. */
  function DefaultedMessage(message: Json, response: Option<Response>): (m: Json)
    ensures Truthy(message) ==> m == message
    ensures !TruthyResponse(response) ==> m == message
    ensures m != message ==>
              !Truthy(message) && TruthyResponse(response)
              && (m == JString(ServiceUnavailable) || m == JString(CheckInputs))
    ensures TruthyResponse(response) && !Truthy(message) ==>
              var code := response.value.statusCode;
              && (code >= 500 ==> m == JString(ServiceUnavailable))
              && (code == 400 ==> m == JString(CheckInputs))
              && (code != 400 && code < 500 ==> m == message)
  {
    if TruthyResponse(response) && !Truthy(message) then
      var code := response.value.statusCode;
      var afterServerCheck := if code >= 500 then JString(ServiceUnavailable) else message;
      if code == 400 then JString(CheckInputs) else afterServerCheck
    else message
  }

  /** The string `__str__` returns once the message is `message`. */
  function Render(message: Json, response: Option<Response>): (s: string)
    ensures TruthyResponse(response) ==>
              var prefix := "Status code " + IntToString(response.value.statusCode) + ". Error message: ";
              |s| == |prefix| + |Str(message)| && s[..|prefix|] == prefix && s[|prefix|..] == Str(message)
    ensures !TruthyResponse(response) ==>
              |s| == 15 + |Str(message)| && s[..15] == "Error message: " && s[15..] == Str(message)
  {
    if TruthyResponse(response) then
      "Status code " + IntToString(response.value.statusCode) + ". Error message: " + Str(message)
    else
      "Error message: " + Str(message)
  }

  /** An `AuthenticationError` or `APIError` object: the object form of the
      value `ErganiError(kind, message, response, payload)` that a failing
      operation raises, with the message that `__str__` updates in place. */
  class Error {
    const kind: ErrorKind
    var message: Json
    const response: Option<Response>
    const payload: Option<Json>

    /** `Error.__init__`: stores its arguments unchanged. */
    constructor (kind: ErrorKind, message: Json, response: Option<Response>, payload: Option<Json>)
      ensures this.kind == kind && this.message == message
      ensures this.response == response && this.payload == payload
    {
      this.kind := kind;
      this.message := message;
      this.response := response;
      this.payload := payload;
    }

    /** `Error.__str__`. */
    method ToString() returns (s: string)
      modifies this
      ensures message == DefaultedMessage(old(message), response)
      ensures s == Render(message, response)
    {
      if response.Some? && response.value.ok {
        if !Truthy(message) {
          if response.value.statusCode >= 500 {
            message := JString(ServiceUnavailable);
          }
          if response.value.statusCode == 400 {
            message := JString(CheckInputs);
          }
        }
        return "Status code " + IntToString(response.value.statusCode) + ". Error message: " + Str(message);
      }
      return "Error message: " + Str(message);
    }
  }

  /** Converting an error to a string a second time changes nothing and
      returns the same string as the first time. */
  lemma ToStringIdempotent(message: Json, response: Option<Response>)
    ensures var once := DefaultedMessage(message, response);
            DefaultedMessage(once, response) == once
            && Render(DefaultedMessage(once, response), response) == Render(once, response)
  {
    var once := DefaultedMessage(message, response);
    if once != message {
      assert Truthy(once);
    }
  }

  /** Two conversions in a row, on the object itself. */
  method ToStringTwice(e: Error) returns (first: string, second: string)
    modifies e
    ensures first == second
    ensures e.message == DefaultedMessage(old(e.message), e.response)
  {
    first := e.ToString();
    second := e.ToString();
    ToStringIdempotent(old(e.message), e.response);
  }

  /** Without a true response the message is left as it is and no status
      code is shown. */
  lemma NoResponseKeepsMessage(message: Json, response: Option<Response>)
    requires !TruthyResponse(response)
    ensures DefaultedMessage(message, response) == message
    ensures Render(DefaultedMessage(message, response), response) == "Error message: " + Str(message)
  {
  }

  /** A server error with an empty message and a true response reads
      "Service unavailable, please try again later". */
  lemma ServerErrorDefault(message: Json, response: Response)
    requires response.ok && !Truthy(message) && response.statusCode >= 500
    ensures Render(DefaultedMessage(message, Some(response)), Some(response))
            == "Status code " + IntToString(response.statusCode) + ". Error message: " + ServiceUnavailable
  {
    var m := DefaultedMessage(message, Some(response));
    assert m == JString(ServiceUnavailable);
    assert Str(m) == ServiceUnavailable;
  }

  /** Status 400 with an empty message and a true response reads "Please
      check your inputs and try again". */
  lemma BadRequestDefault(message: Json, response: Response)
    requires response.ok && !Truthy(message) && response.statusCode == 400
    ensures Render(DefaultedMessage(message, Some(response)), Some(response))
            == "Status code 400. Error message: " + CheckInputs
  {
    var m := DefaultedMessage(message, Some(response));
    assert m == JString(CheckInputs);
    assert Str(m) == CheckInputs;
    FourHundred();
  }

  lemma FourHundred()
    ensures IntToString(400) == "400"
  {
    assert Pad(4, 0) == "4";
    assert Pad(40, 1) == "40";
  }

  /** Any other status leaves an empty message empty. */
  lemma OtherStatusKeepsMessage(message: Json, response: Response)
    requires response.ok && !Truthy(message) && response.statusCode != 400 && response.statusCode < 500
    ensures DefaultedMessage(message, Some(response)) == message
  {
  }

  // ---------------------------------------------------------------------
  // The evidently intended reading: a present response, true or not

  /** `DefaultedMessage` with `if self.response is not None` in place of
      `if self.response`. */
  function IntendedDefaultedMessage(message: Json, response: Option<Response>): (m: Json)
    ensures Truthy(message) || response.None? ==> m == message
    ensures response.Some? && !Truthy(message) && response.value.statusCode >= 500 ==>
              m == JString(ServiceUnavailable)
    ensures response.Some? && !Truthy(message) && response.value.statusCode == 400 ==>
              m == JString(CheckInputs)
    ensures response.Some? && !Truthy(message) && response.value.statusCode != 400
            && response.value.statusCode < 500 ==>
              m == message
  {
    if response.Some? && !Truthy(message) then
      var code := response.value.statusCode;
      if code == 400 then JString(CheckInputs)
      else if code >= 500 then JString(ServiceUnavailable)
      else message
    else message
  }

  /** `Render` with the same correction. */
  function IntendedRender(message: Json, response: Option<Response>): (s: string)
    ensures response.Some? ==>
              var prefix := "Status code " + IntToString(response.value.statusCode) + ". Error message: ";
              |s| == |prefix| + |Str(message)| && s[..|prefix|] == prefix && s[|prefix|..] == Str(message)
    ensures response.None? ==> s == "Error message: " + Str(message)
  {
    if response.Some? then
      "Status code " + IntToString(response.value.statusCode) + ". Error message: " + Str(message)
    else
      "Error message: " + Str(message)
  }

  /** The corrected reading agrees with the written one whenever the
      response is true, and otherwise only differs by showing the status
      and the defaults. */
  lemma IntendedAgreesOnTrueResponses(message: Json, response: Option<Response>)
    ensures TruthyResponse(response) ==>
              IntendedDefaultedMessage(message, response) == DefaultedMessage(message, response)
              && IntendedRender(message, response) == Render(message, response)
    ensures response.None? ==>
              IntendedDefaultedMessage(message, response) == DefaultedMessage(message, response)
              && IntendedRender(message, response) == Render(message, response)
  {
  }
}
