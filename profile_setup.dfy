/** The profile setup page: checking the form, sending the profile, handing
    the saved user to the session store, and the colour of the message line. */
module ProfileSetup {
  import opened Text
  import opened Records
  import Session

  /** The signs that open the page's messages: check mark, warning sign
      (with its emoji variation selector) and cross mark. */
  const CheckMark: string := "\U{2705}"
  const WarningSign: string := "\U{26A0}\U{FE0F}"
  const CrossMark: string := "\U{274C}"

  const FillAllFields: string := WarningSign + " Please fill all the fields."
  const NoUserId: string := CrossMark + " Error: User ID not available. Please log in again."
  const SavedAndRedirecting: string := CheckMark + " Profile saved successfully! Redirecting to dashboard..."
  const ServerErrorPrefix: string := CrossMark + " Error: "
  const UnknownServerIssue: string := "Unknown server issue."
  const SaveFailedPrefix: string := CrossMark + " Failed to save profile. "
  const TryAgainLater: string := "Please try again later."

  /** The body of the profile request. The numeric fields are sent as
      `Number(...)` of the field text; the conversion is not modelled. */
  datatype ProfilePayload = ProfilePayload(userId: string, name: string, age: string,
                                           initialWeight: string, targetWeight: string, conditions: string)

  /** How the request ends: it failed with no response at all, or a response
      came back with its status, the returned user and the body's `message`
      (`""` when there is none). */
  datatype ProfileOutcome =
    | RequestThrew
    | Response(status: int, user: Option<User>, serverMessage: string)

  /** The statuses `axios` resolves with; any other status rejects, and the
      rejection's `err.response` is that response. */
  predicate AxiosResolves(status: int) {
    200 <= status < 300
  }

  /** The required fields: any of them empty, or the name or the conditions
      only white space, stops the submit. */
  predicate FieldsMissing(name: string, initialWeight: string, targetWeight: string, age: string,
                          conditions: string) {
    Trim(name) == "" || initialWeight == "" || targetWeight == "" || age == "" || Trim(conditions) == ""
  }

  function Payload(userId: string, name: string, initialWeight: string, targetWeight: string,
                   age: string, conditions: string): (p: ProfilePayload)
    ensures p.userId == userId
    ensures p.name == Trim(name) && p.conditions == Trim(conditions)
    ensures p.age == age && p.initialWeight == initialWeight && p.targetWeight == targetWeight
    ensures Trimmed(p.name) && Trimmed(p.conditions)
  {
    ProfilePayload(userId, Trim(name), age, initialWeight, targetWeight, Trim(conditions))
  }

  datatype Colour = Green | Yellow | Red

  /** The message line's colour; no line is shown for an empty message. */
  function MessageColour(message: string): (c: Option<Colour>)
    ensures c.None? <==> message == ""
    ensures StartsWith(message, CheckMark) ==> c == Some(Green)
    ensures !StartsWith(message, CheckMark) && StartsWith(message, WarningSign) ==> c == Some(Yellow)
    ensures message != "" && !StartsWith(message, CheckMark) && !StartsWith(message, WarningSign) ==>
              c == Some(Red)
  {
    if message == "" then None
    else if StartsWith(message, CheckMark) then Some(Green)
    else if StartsWith(message, WarningSign) then Some(Yellow)
    else Some(Red)
  }

  /** Every message the page sets has the colour its sign calls for: the
      success message green, the missing-fields warning yellow, every error red. */
  lemma MessageColours(detail: string)
    ensures MessageColour(SavedAndRedirecting) == Some(Green)
    ensures MessageColour(FillAllFields) == Some(Yellow)
    ensures MessageColour(NoUserId) == Some(Red)
    ensures MessageColour(ServerErrorPrefix + detail) == Some(Red)
    ensures MessageColour(SaveFailedPrefix + detail) == Some(Red)
  {
    assert FillAllFields[..2] == WarningSign && FillAllFields[0] != CheckMark[0];
    assert (ServerErrorPrefix + detail)[0] == CrossMark[0];
    assert (SaveFailedPrefix + detail)[0] == CrossMark[0];
  }

  class ProfileForm {
    var name: string
    var initialWeight: string
    var targetWeight: string
    var age: string
    var conditions: string
    var message: string
    var loading: bool
    var redirecting: bool
    /** The profile requests sent so far. */
    var requests: seq<ProfilePayload>

    constructor (name: string, initialWeight: string, targetWeight: string, age: string, conditions: string)
      ensures this.name == name && this.initialWeight == initialWeight && this.targetWeight == targetWeight
      ensures this.age == age && this.conditions == conditions
      ensures message == "" && !loading && !redirecting && requests == []
    {
      this.name := name;
      this.initialWeight := initialWeight;
      this.targetWeight := targetWeight;
      this.age := age;
      this.conditions := conditions;
      message := "";
      loading := false;
      redirecting := false;
      requests := [];
    }

    /** `disabled={loading || redirecting}`. */
    predicate SubmitDisabled()
      reads this
    {
      loading || redirecting
    }

    /** `handleSubmit`; `onLogin` is the session store's login handler. */
    method HandleSubmit(user: Option<User>, outcome: ProfileOutcome, store: Session.SessionStore)
      modifies this, store
      ensures name == old(name) && initialWeight == old(initialWeight) && targetWeight == old(targetWeight)
      ensures age == old(age) && conditions == old(conditions)
      ensures FieldsMissing(name, initialWeight, targetWeight, age, conditions) ==>
                && message == FillAllFields && requests == old(requests)
                && loading == old(loading) && redirecting == old(redirecting)
                && store.user == old(store.user) && store.local == old(store.local) && store.session == old(store.session)
      ensures !FieldsMissing(name, initialWeight, targetWeight, age, conditions) && !HasId(user) ==>
                && message == NoUserId && requests == old(requests)
                && loading == old(loading) && redirecting == old(redirecting)
                && store.user == old(store.user) && store.local == old(store.local) && store.session == old(store.session)
      ensures !FieldsMissing(name, initialWeight, targetWeight, age, conditions) && HasId(user) ==>
                && requests == old(requests) + [Payload(user.value.id, name, initialWeight, targetWeight, age, conditions)]
                && !loading
      ensures !FieldsMissing(name, initialWeight, targetWeight, age, conditions) && HasId(user) &&
              outcome.Response? && outcome.status == 200 ==>
                && message == SavedAndRedirecting && redirecting && SubmitDisabled()
                && store.user == outcome.user
                && (outcome.user.Some? && old(store.local).Some? ==> store.local == outcome.user && store.session.None?)
                && (outcome.user.Some? && old(store.local).None? ==> store.session == outcome.user && store.local.None?)
                && (outcome.user.None? ==> store.local.None? && store.session.None?)
      ensures !FieldsMissing(name, initialWeight, targetWeight, age, conditions) && HasId(user) &&
              outcome.Response? && AxiosResolves(outcome.status) && outcome.status != 200 ==>
                && message == ServerErrorPrefix + OrElse(outcome.serverMessage, UnknownServerIssue)
                && redirecting == old(redirecting)
                && store.user == old(store.user) && store.local == old(store.local) && store.session == old(store.session)
      ensures !FieldsMissing(name, initialWeight, targetWeight, age, conditions) && HasId(user) &&
              outcome.Response? && !AxiosResolves(outcome.status) ==>
                && message == SaveFailedPrefix + OrElse(outcome.serverMessage, TryAgainLater)
                && redirecting == old(redirecting)
                && store.user == old(store.user) && store.local == old(store.local) && store.session == old(store.session)
      ensures !FieldsMissing(name, initialWeight, targetWeight, age, conditions) && HasId(user) &&
              outcome.RequestThrew? ==>
                && message == SaveFailedPrefix + TryAgainLater
                && redirecting == old(redirecting)
                && store.user == old(store.user) && store.local == old(store.local) && store.session == old(store.session)
    {
      if FieldsMissing(name, initialWeight, targetWeight, age, conditions) {
        message := FillAllFields;
        return;
      }
      if !HasId(user) {
        message := NoUserId;
        return;
      }

      loading := true;
      message := "";
      var payload := Payload(user.value.id, name, initialWeight, targetWeight, age, conditions);
      requests := requests + [payload];
      match outcome {
        case RequestThrew =>
          message := SaveFailedPrefix + TryAgainLater;
        case Response(status, savedUser, serverMessage) =>
          if !AxiosResolves(status) {
            // The rejection lands in the catch, carrying the response's message.
            message := SaveFailedPrefix + OrElse(serverMessage, TryAgainLater);
          } else if status == 200 {
            message := SavedAndRedirecting;
            redirecting := true;
            store.HandleLogin(savedUser, store.local.Some?);
          } else {
            message := ServerErrorPrefix + OrElse(serverMessage, UnknownServerIssue);
          }
      }
      loading := false;
    }
  }
}
