/**
 * The BrickBot chat screen: navigation markers in the bot's replies, the
 * send guard, the inquiry and report forms, and the suggestion buttons.
 * The chat and submission APIs are parameters (their outcome), and the
 * translated texts are a record given to the screen.
 */
module BrickBot {
  import opened Wrappers
  import opened JsText

  datatype Action = Create | Gallery | MyPage

  const CreateMarker: string := "{{NAV_CREATE}}"
  const GalleryMarker: string := "{{NAV_GALLERY}}"
  const MyPageMarker: string := "{{NAV_MYPAGE}}"

  function MarkerOf(a: Action): string {
    match a
    case Create => CreateMarker
    case Gallery => GalleryMarker
    case MyPage => MyPageMarker
  }

  /** The fixed order the actions are listed in. */
  function Rank(a: Action): int {
    match a
    case Create => 0
    case Gallery => 1
    case MyPage => 2
  }

  /** `handleActionClick`: the screen each action replaces the current one with. */
  function ActionRoute(a: Action): (route: string)
    ensures (route == "/create-selection") <==> a == Create
    ensures (route == "/(tabs)/explore") <==> a == Gallery
    ensures (route == "/my-page") <==> a == MyPage
  {
    match a
    case Create => "/create-selection"
    case Gallery => "/(tabs)/explore"
    case MyPage => "/my-page"
  }

  /** The reply text shown: every marker removed, one kind after the other, then trimmed. */
  function CleanText(text: string): string {
    Trim(RemoveAll(RemoveAll(RemoveAll(text, CreateMarker), GalleryMarker), MyPageMarker))
  }

  /** The actions whose markers are present, given which are: in the fixed order create, gallery, my page. */
  function Pick(create: bool, gallery: bool, myPage: bool): seq<Action> {
    (if create then [Create] else []) + (if gallery then [Gallery] else []) + (if myPage then [MyPage] else [])
  }

  /** Whether the action's flag is set. */
  function Flag(a: Action, create: bool, gallery: bool, myPage: bool): bool {
    match a
    case Create => create
    case Gallery => gallery
    case MyPage => myPage
  }

  lemma PickMeaning(create: bool, gallery: bool, myPage: bool)
    ensures forall a :: a in Pick(create, gallery, myPage) <==> Flag(a, create, gallery, myPage)
    ensures forall i, j :: 0 <= i < j < |Pick(create, gallery, myPage)| ==>
              Rank(Pick(create, gallery, myPage)[i]) < Rank(Pick(create, gallery, myPage)[j])
  {
  }

  /** The actions of a reply: one per marker it holds, in the fixed order. */
  function ActionsIn(text: string): seq<Action> {
    Pick(Includes(text, CreateMarker), Includes(text, GalleryMarker), Includes(text, MyPageMarker))
  }

  /** An action is listed exactly when its marker occurs, and the list follows the fixed order without repeats. */
  lemma ActionsInMeaning(text: string)
    ensures forall a :: a in ActionsIn(text) <==> Includes(text, MarkerOf(a))
    ensures forall i, j :: 0 <= i < j < |ActionsIn(text)| ==> Rank(ActionsIn(text)[i]) < Rank(ActionsIn(text)[j])
    ensures ActionsIn(text) == [] <==> forall a :: !Includes(text, MarkerOf(a))
  {
    var c, g, m := Includes(text, CreateMarker), Includes(text, GalleryMarker), Includes(text, MyPageMarker);
    PickMeaning(c, g, m);
    assert forall a :: Includes(text, MarkerOf(a)) == Flag(a, c, g, m);
    if ActionsIn(text) != [] {
      assert ActionsIn(text)[0] in ActionsIn(text);
    }
  }

  /** The first half of `parseBotResponse`: an action is pushed, in the fixed order, for each marker in the text. */
  method FindActions(text: string) returns (actions: seq<Action>)
    ensures actions == ActionsIn(text)
  {
    actions := [];
    if Includes(text, CreateMarker) {
      actions := actions + [Create];
    }
    if Includes(text, GalleryMarker) {
      actions := actions + [Gallery];
    }
    if Includes(text, MyPageMarker) {
      actions := actions + [MyPage];
    }
  }

  /** `parseBotResponse`: the actions found in the original text, and the cleaned text. */
  method ParseBotResponse(text: string) returns (cleanText: string, actions: seq<Action>)
    ensures forall a :: a in actions <==> Includes(text, MarkerOf(a))
    ensures forall i, j :: 0 <= i < j < |actions| ==> Rank(actions[i]) < Rank(actions[j])
    ensures actions == ActionsIn(text) && cleanText == CleanText(text)
  {
    actions := FindActions(text);
    ActionsInMeaning(text);
    cleanText := RemoveAll(text, CreateMarker);
    cleanText := RemoveAll(cleanText, GalleryMarker);
    cleanText := RemoveAll(cleanText, MyPageMarker);
    cleanText := Trim(cleanText);
  }

  /** A reply without markers is only trimmed. */
  lemma NoMarkerIsTrim(text: string)
    requires !Includes(text, CreateMarker) && !Includes(text, GalleryMarker) && !Includes(text, MyPageMarker)
    ensures CleanText(text) == Trim(text)
  {
    RemoveAllAbsent(text, CreateMarker);
    RemoveAllAbsent(text, GalleryMarker);
    RemoveAllAbsent(text, MyPageMarker);
  }

  /** The shown text never starts or ends with white space, and is empty exactly when what is left after removal is blank. */
  lemma CleanTextTrimmed(text: string)
    ensures var c := CleanText(text);
      c == [] || (!IsWhiteSpace(c[0]) && !IsWhiteSpace(c[|c| - 1]))
  {
    TrimEmptyIffBlank(RemoveAll(RemoveAll(RemoveAll(text, CreateMarker), GalleryMarker), MyPageMarker));
  }

  /** Removal can form a new marker out of the pieces around a removed one: the markers are not all gone afterwards. */
  lemma RemovalCanReformMarker(s: string)
    requires s == "{{NAV_" + CreateMarker + "CREATE}}"
    ensures Includes(s, CreateMarker) && CleanText(s) == CreateMarker
  {
    NestedCreateIncludes(s);
    NestedCreateRemoval(s, CreateMarker);
    CreateMarkerKeepsOthers(CreateMarker);
    CreateMarkerTrimmed(CreateMarker);
  }

  lemma NestedCreateIncludes(s: string)
    requires s == "{{NAV_" + CreateMarker + "CREATE}}"
    ensures Includes(s, CreateMarker)
  {
    assert s[6..6 + |CreateMarker|] == CreateMarker;
    IncludesIffOccurs(s, CreateMarker);
    assert OccursAt(s, CreateMarker, 6);
  }

  lemma CreateMarkerTrimmed(m: string)
    requires m == CreateMarker
    ensures Trim(m) == m
  {
    assert m[0] == '{' && m[|m| - 1] == '}';
    TrimOfTrimmed(m);
  }

  lemma NestedCreateRemoval(s: string, m: string)
    requires m == CreateMarker && s == "{{NAV_" + m + "CREATE}}"
    ensures RemoveAll(s, m) == m
  {
    var front, back := "{{NAV_", "CREATE}}";
    forall i | 0 <= i < |front| ensures !StartsWith(s[i..], m) {
      NoEarlyMatch(s, m, i);
    }
    NoMatchBeforeIndices(s, |front|, m);
    IncludesNeedsRoom(back, m);
    RemoveAllAround(front, m, back);
    MarkerHalves(m);
  }

  /** Removing the only match, when no match starts before it and none follows it. */
  lemma RemoveAllAround(front: string, m: string, back: string)
    requires |m| > 0 && !Includes(back, m)
    requires NoMatchBefore(front + m + back, |front|, m)
    ensures RemoveAll(front + m + back, m) == front + back
  {
    var s := front + m + back;
    assert s[|front|..|front| + |m|] == m;
    RemoveAllPrefixFree(s, |front|, m);
    assert s[..|front|] == front && s[|front| + |m|..] == back;
    RemoveAllAbsent(back, m);
  }

  /** The halves left around the nested marker make up a marker. */
  lemma MarkerHalves(m: string)
    requires m == CreateMarker
    ensures "{{NAV_" + "CREATE}}" == m
  {
  }

  lemma NoEarlyMatch(s: string, m: string, i: nat)
    requires m == CreateMarker && s == "{{NAV_" + m + "CREATE}}" && i < 6
    ensures !StartsWith(s[i..], m)
  {
    var k := if i == 0 then 6 else if i == 1 then 1 else 0;
    assert s[i + k] != m[k];
    assert s[i..][..|m|][k] == s[i + k];
  }

  /** The create marker is too short to hold the gallery marker. */
  lemma CreateMarkerLacksGallery(m: string)
    requires m == CreateMarker
    ensures !Includes(m, GalleryMarker)
  {
    IncludesNeedsRoom(m, GalleryMarker);
  }

  /** The create and my-page markers have the same length and differ. */
  lemma CreateMarkerIsNotMyPage(m: string)
    requires m == CreateMarker
    ensures |m| == |MyPageMarker| && m != MyPageMarker
  {
    assert m[6] != MyPageMarker[6];
  }

  /** The create marker holds neither of the other two. */
  lemma CreateMarkerKeepsOthers(m: string)
    requires m == CreateMarker
    ensures RemoveAll(m, GalleryMarker) == m
    ensures RemoveAll(m, MyPageMarker) == m
  {
    CreateMarkerLacksGallery(m);
    RemoveAllAbsent(m, GalleryMarker);
    CreateMarkerIsNotMyPage(m);
    RemoveAllSameLength(m, MyPageMarker);
  }

  datatype Role = UserRole | BotRole

  /** A chat message; the id made from the clock is not modelled. */
  datatype ChatMessage = ChatMessage(role: Role, content: string, actions: Option<seq<Action>>)

  /** The bot's message for a reply: the cleaned text, with its actions when there are any. */
  function BotMessage(reply: string): ChatMessage {
    var actions := ActionsIn(reply);
    ChatMessage(BotRole, CleanText(reply), if |actions| > 0 then Some(actions) else None)
  }

  /** A reply's message shows the cleaned text, carries actions exactly when some marker occurs, and then exactly those of the markers present. */
  lemma BotMessageMeaning(reply: string)
    ensures BotMessage(reply).role == BotRole && BotMessage(reply).content == CleanText(reply)
    ensures BotMessage(reply).actions == None <==> forall a :: !Includes(reply, MarkerOf(a))
    ensures BotMessage(reply).actions.Some? ==>
              forall a :: a in BotMessage(reply).actions.value <==> Includes(reply, MarkerOf(a))
  {
    ActionsInMeaning(reply);
  }

  datatype Mode = ChatMode | InquiryMode | ReportMode

  datatype Alert = Alert(title: string, body: string)

  /** The translated texts the screen uses. */
  datatype ChatText = ChatText(
    welcome: string, inquirySuggestion: string, reportSuggestion: string,
    alertTitle: string, errorTitle: string, error: string,
    loginRequired: string, inputRequired: string,
    inquiryConfirm: string, reportConfirm: string)

  /** The body of a report request. */
  datatype ReportRequest = ReportRequest(targetType: string, targetId: string, reason: string, details: string)

  const DefaultReason: string := "SPAM"
  /** A report sent from the chat is about no particular item. */
  const GeneralTarget: string := "GENERAL"
  const NoTargetId: string := "0"

  /**
   * The chat screen. Its guards `!text.trim()` are written `IsBlank(text)`,
   * the same test by `TrimsToEmpty`.
   */
  class BrickBotScreen {
    const t: ChatText
    var messages: seq<ChatMessage>
    var input: string
    var isLoading: bool
    var showSuggestions: bool
    var mode: Mode
    var formTitle: string
    var formContent: string
    var reportReason: string
    var isSubmitting: bool
    /** The alerts shown, in order. */
    var alerts: seq<Alert>

    constructor (t: ChatText)
      ensures this.t == t && messages == [ChatMessage(BotRole, t.welcome, None)]
      ensures input == "" && !isLoading && !showSuggestions && mode == ChatMode
      ensures formTitle == "" && formContent == "" && reportReason == DefaultReason && !isSubmitting && alerts == []
    {
      this.t := t;
      messages := [ChatMessage(BotRole, t.welcome, None)];
      input := "";
      isLoading := false;
      showSuggestions := false;
      mode := ChatMode;
      formTitle := "";
      formContent := "";
      reportReason := DefaultReason;
      isSubmitting := false;
      alerts := [];
    }

    /** The synchronous part of `handleSend(text)`: refused for blank text or while a reply is awaited; otherwise the untrimmed text is posted and the query starts. */
    method HandleSend(text: string) returns (sent: bool)
      modifies this`messages, this`input, this`isLoading
      ensures sent <==> !IsBlank(text) && !old(isLoading)
      ensures !sent ==> messages == old(messages) && input == old(input) && isLoading == old(isLoading)
      ensures sent ==> messages == old(messages) + [ChatMessage(UserRole, text, None)] && input == "" && isLoading
    {
      var blank := IsBlank(text);
      if blank || isLoading {
        return false;
      }
      messages := messages + [ChatMessage(UserRole, text, None)];
      input := "";
      isLoading := true;
      sent := true;
    }

    /** The rest of `handleSend`: the reply (or the failure) of the chat query arrives. */
    method ReceiveReply(reply: Result<string>)
      modifies this`messages, this`isLoading
      ensures !isLoading
      ensures reply.Err? ==> messages == old(messages) + [ChatMessage(BotRole, t.error, None)]
      ensures reply.Ok? ==> messages == old(messages) + [BotMessage(reply.value)]
    {
      if reply.Err? {
        messages := messages + [ChatMessage(BotRole, t.error, None)];
      } else {
        var cleanText, actions := ParseBotResponse(reply.value);
        var botActions := if |actions| > 0 then Some(actions) else None;
        messages := messages + [ChatMessage(BotRole, cleanText, botActions)];
      }
      isLoading := false;
    }

    /** `submitInquiry`, given whether the request succeeds. */
    method SubmitInquiry(apiOk: bool) returns (submitted: bool)
      modifies this`mode, this`messages, this`alerts, this`isSubmitting
      ensures submitted <==> !IsBlank(formTitle) && !IsBlank(formContent)
      ensures !isSubmitting || isSubmitting == old(isSubmitting)
      ensures !submitted ==> alerts == old(alerts) + [Alert(t.alertTitle, t.inputRequired)]
                             && mode == old(mode) && messages == old(messages)
      ensures submitted && apiOk ==> mode == ChatMode && messages == old(messages) + [ChatMessage(BotRole, t.inquiryConfirm, None)]
                                     && alerts == old(alerts)
      ensures submitted && !apiOk ==> alerts == old(alerts) + [Alert(t.errorTitle, t.error)]
                                      && mode == old(mode) && messages == old(messages)
    {
      var blank := IsBlank(formTitle) || IsBlank(formContent);
      if blank {
        alerts := alerts + [Alert(t.alertTitle, t.inputRequired)];
        return false;
      }
      submitted := true;
      isSubmitting := true;
      if apiOk {
        mode := ChatMode;
        messages := messages + [ChatMessage(BotRole, t.inquiryConfirm, None)];
      } else {
        alerts := alerts + [Alert(t.errorTitle, t.error)];
      }
      isSubmitting := false;
    }

    /** `submitReport`, given whether the request succeeds; the request sent, if any, is returned. */
    method SubmitReport(apiOk: bool) returns (request: Option<ReportRequest>)
      modifies this`mode, this`messages, this`alerts, this`isSubmitting
      ensures request.Some? <==> !IsBlank(formContent)
      ensures request.Some? ==> request.value == ReportRequest(GeneralTarget, NoTargetId, reportReason, formContent)
      ensures !isSubmitting || isSubmitting == old(isSubmitting)
      ensures request.None? ==> alerts == old(alerts) + [Alert(t.alertTitle, t.inputRequired)]
                                && mode == old(mode) && messages == old(messages)
      ensures request.Some? && apiOk ==> mode == ChatMode && messages == old(messages) + [ChatMessage(BotRole, t.reportConfirm, None)]
                                         && alerts == old(alerts)
      ensures request.Some? && !apiOk ==> alerts == old(alerts) + [Alert(t.errorTitle, t.error)]
                                          && mode == old(mode) && messages == old(messages)
    {
      var blank := IsBlank(formContent);
      if blank {
        alerts := alerts + [Alert(t.alertTitle, t.inputRequired)];
        request := None;
      } else {
        isSubmitting := true;
        request := Some(ReportRequest(GeneralTarget, NoTargetId, reportReason, formContent));
        if apiOk {
          mode := ChatMode;
          messages := messages + [ChatMessage(BotRole, t.reportConfirm, None)];
        } else {
          alerts := alerts + [Alert(t.errorTitle, t.error)];
        }
        isSubmitting := false;
      }
    }

    /**
     * `handleSuggestionClick(q)`: the inquiry and report suggestions open
     * their form (a logged-out user only gets an alert, and the suggestions
     * stay as they are); any other suggestion is sent as a chat message.
     */
    method HandleSuggestionClick(q: string, isLoggedIn: bool) returns (sent: bool)
      modifies this`mode, this`formTitle, this`formContent, this`reportReason, this`showSuggestions,
               this`alerts, this`messages, this`input, this`isLoading
      ensures (q == t.inquirySuggestion || q == t.reportSuggestion) && !isLoggedIn ==>
                alerts == old(alerts) + [Alert(t.alertTitle, t.loginRequired)] && !sent
                && mode == old(mode) && showSuggestions == old(showSuggestions) && messages == old(messages)
                && formTitle == old(formTitle) && formContent == old(formContent) && reportReason == old(reportReason)
                && input == old(input) && isLoading == old(isLoading)
      ensures q == t.inquirySuggestion && isLoggedIn ==>
                mode == InquiryMode && formTitle == "" && formContent == "" && !showSuggestions
                && !sent && alerts == old(alerts) && reportReason == old(reportReason) && messages == old(messages)
                && input == old(input) && isLoading == old(isLoading)
      ensures q != t.inquirySuggestion && q == t.reportSuggestion && isLoggedIn ==>
                mode == ReportMode && formContent == "" && reportReason == DefaultReason && !showSuggestions
                && !sent && alerts == old(alerts) && formTitle == old(formTitle) && messages == old(messages)
                && input == old(input) && isLoading == old(isLoading)
      ensures q != t.inquirySuggestion && q != t.reportSuggestion ==>
                mode == old(mode) && !showSuggestions && alerts == old(alerts)
                && formTitle == old(formTitle) && formContent == old(formContent) && reportReason == old(reportReason)
                && (sent <==> !IsBlank(q) && !old(isLoading))
                && (sent ==> messages == old(messages) + [ChatMessage(UserRole, q, None)] && input == "" && isLoading)
                && (!sent ==> messages == old(messages) && input == old(input) && isLoading == old(isLoading))
    {
      sent := false;
      if q == t.inquirySuggestion {
        if !isLoggedIn {
          alerts := alerts + [Alert(t.alertTitle, t.loginRequired)];
          return;
        }
        mode := InquiryMode;
        formTitle := "";
        formContent := "";
      } else if q == t.reportSuggestion {
        if !isLoggedIn {
          alerts := alerts + [Alert(t.alertTitle, t.loginRequired)];
          return;
        }
        mode := ReportMode;
        formContent := "";
        reportReason := DefaultReason;
      } else {
        sent := HandleSend(q);
      }
      showSuggestions := false;
    }
  }
}
