/** Request and response shapes of the queue-join endpoint: the accepted
    choices, the defaults and the length limits, and the reply text the
    join view adds to the service's result. */
module MatchingSerializers {
  import opened Wrappers
  import MatchingService

  const VibeTagChoices: set<string> := {"music", "tech", "jokes", "relationships", "travel", "random"}
  const LanguageChoices: set<string> := {"kinyarwanda", "english", "french", "mixed"}
  const StatusChoices: set<string> := {"queued", "matched"}
  const MatchedUserMaxLength: nat := 50
  const MessageMaxLength: nat := 200

  /** A join request as submitted: each field may be omitted. */
  datatype JoinRequest = JoinRequest(vibeTag: Option<string>, language: Option<string>, isVisitor: Option<bool>)

  /** The validated data handed to the matching service. */
  datatype JoinPreferences = JoinPreferences(vibeTag: string, language: string, isVisitor: bool)

  datatype FieldError = InvalidVibeTag | InvalidLanguage

  predicate Acceptable(field: Option<string>, choices: set<string>) {
    field.None? || field.value in choices
  }

  /** `JoinQueueSerializer`: each field is checked against its choices; every
      failing field is reported; omitted fields take their defaults. */
  function ValidateJoin(req: JoinRequest): (r: Result<JoinPreferences, set<FieldError>>)
    ensures r.Success? <==> Acceptable(req.vibeTag, VibeTagChoices) && Acceptable(req.language, LanguageChoices)
    ensures r.Success? ==> r.value.vibeTag in VibeTagChoices && r.value.language in LanguageChoices
    ensures r.Success? ==>
              && r.value.vibeTag == req.vibeTag.GetOr("random")
              && r.value.language == req.language.GetOr("mixed")
              && r.value.isVisitor == req.isVisitor.GetOr(false)
    ensures r.Failure? ==>
              && r.error != {}
              && (InvalidVibeTag in r.error <==> !Acceptable(req.vibeTag, VibeTagChoices))
              && (InvalidLanguage in r.error <==> !Acceptable(req.language, LanguageChoices))
  {
    var errors := (if Acceptable(req.vibeTag, VibeTagChoices) then {} else {InvalidVibeTag})
                + (if Acceptable(req.language, LanguageChoices) then {} else {InvalidLanguage});
    if errors == {} then
      Success(JoinPreferences(req.vibeTag.GetOr("random"), req.language.GetOr("mixed"), req.isVisitor.GetOr(false)))
    else Failure(errors)
  }

  /** The fields of a join reply. */
  datatype MatchResponse = MatchResponse(
    status: string,
    sessionId: Option<nat>,
    matchedUser: Option<string>,
    queuePosition: Option<int>,
    message: Option<string>)

  /** `MatchResponseSerializer`'s field constraints. */
  predicate ValidMatchResponse(r: MatchResponse) {
    && r.status in StatusChoices
    && (r.matchedUser.Some? ==> |r.matchedUser.value| <= MatchedUserMaxLength)
    && (r.message.Some? ==> |r.message.value| <= MessageMaxLength)
  }

  function Digit(d: nat): char
    requires d < 10
  {
    "0123456789"[d]
  }

  /** Python's `str()` of a non-negative integer. */
  function DecimalString(n: nat): (s: string)
    ensures |s| >= 1
  {
    if n < 10 then [Digit(n)] else DecimalString(n / 10) + [Digit(n % 10)]
  }

  function Pow10(k: nat): (p: nat)
    ensures p >= 1
  {
    if k == 0 then 1 else 10 * Pow10(k - 1)
  }

  lemma {:induction false} DecimalStringLength(n: nat, k: nat)
    requires 1 <= k && n < Pow10(k)
    ensures |DecimalString(n)| <= k
  {
    if n >= 10 {
      assert k > 1;
      DecimalStringLength(n / 10, k - 1);
    }
  }

  /** The join view's reply: the service result plus a message. */
  function JoinReply(res: MatchingService.JoinResult): (r: MatchResponse)
    ensures r.status in StatusChoices
    ensures res.Matched? <==> r.status == "matched"
  {
    match res
    case Matched(sid, nickname) =>
      MatchResponse("matched", Some(sid), Some(nickname), None, Some(MatchingService.MatchMessage(nickname)))
    case Queued(position) =>
      MatchResponse("queued", None, None, Some(position),
                    Some("You're in queue (position " + DecimalString(position) + ")"))
  }

  /** With nicknames of at most 50 characters (the user table's limit) and
      fewer than 10^100 waiting users, every join reply meets the response
      serializer's limits. */
  lemma JoinReplyValid(res: MatchingService.JoinResult)
    requires res.Matched? ==> |res.matchedUser| <= MatchedUserMaxLength
    requires res.Queued? ==> res.queuePosition < Pow10(100)
    ensures ValidMatchResponse(JoinReply(res))
  {
    if res.Queued? {
      DecimalStringLength(res.queuePosition, 100);
    }
  }
}
