/**
 * The state of the React client's main component (pc_builder/src/App.jsx)
 * and the handlers that change it. The state the modelled handlers read or
 * write is a field; each handler is a method. A handler that awaits a request is split at
 * the await: `Begin...` runs up to the request and `Settle...` runs when it
 * settles, with the settlement as input, so that other handlers may run in
 * between. `Search` and `SendChat` run one request from start to finish.
 * `localStorage` is the map field `storage`.
 */
module AppState {
  import opened Wrappers
  import opened Json
  import opened Text
  import opened Gateway
  import opened Estimates

  datatype Screen = MainScreen | ChatScreen | ExpertScreen | GalleryScreen | LoginScreen | SignupScreen

  const TokenKey := "userToken"
  const UsernameKey := "userUsername"
  const NameKey := "userName"
  const SessionKey := "chatSessionId"

  /** What a storage key holds, `null` (`None`) when it is absent. */
  function Stored(storage: map<string, string>, key: string): Option<string> {
    if key in storage then Some(storage[key]) else None
  }

  /** `initialUser()`: a user exactly when token, username and name are all stored and non-empty. */
  function InitialUser(storage: map<string, string>): (u: Option<AppUser>)
    ensures u.Some? <==>
      && Stored(storage, TokenKey).Some? && Stored(storage, TokenKey) != Some("")
      && Stored(storage, UsernameKey).Some? && Stored(storage, UsernameKey) != Some("")
      && Stored(storage, NameKey).Some? && Stored(storage, NameKey) != Some("")
    ensures u.Some? ==> u.value == AppUser(storage[TokenKey], storage[UsernameKey], storage[NameKey])
  {
    if TokenKey in storage && storage[TokenKey] != "" && UsernameKey in storage && storage[UsernameKey] != ""
       && NameKey in storage && storage[NameKey] != ""
    then Some(AppUser(storage[TokenKey], storage[UsernameKey], storage[NameKey]))
    else None
  }

  /**
   * The storage after logout: the three login keys are removed, so a
   * reload finds no user, and every other key keeps its value.
   */
  function ClearLogin(storage: map<string, string>): (r: map<string, string>)
    ensures r.Keys == storage.Keys - {TokenKey, UsernameKey, NameKey}
    ensures forall k :: k in r ==> r[k] == storage[k]
    ensures InitialUser(r) == None
  {
    storage - {TokenKey, UsernameKey, NameKey}
  }

  /**
   * `getOrCreateSessionId()`: the stored session id when there is a
   * non-empty one, else `generated`, which is then stored. `generated`
   * stands for the time-and-random text the source builds, which is never
   * empty.
   */
  function GetOrCreateSessionId(storage: map<string, string>, generated: string): (r: (string, map<string, string>))
    requires generated != ""
    ensures r.0 != "" && r.1 == storage[SessionKey := r.0]
    ensures SessionKey in storage && storage[SessionKey] != "" ==> r == (storage[SessionKey], storage)
    ensures !(SessionKey in storage && storage[SessionKey] != "") ==> r.0 == generated
  {
    if SessionKey in storage && storage[SessionKey] != "" then (storage[SessionKey], storage)
    else (generated, storage[SessionKey := generated])
  }

  /** Once created, the session id survives every later page load, whatever id would be generated then. */
  lemma SessionIdStable(storage: map<string, string>, generated: string, later: string)
    requires generated != "" && later != ""
    ensures var (id, stored) := GetOrCreateSessionId(storage, generated);
      GetOrCreateSessionId(stored, later) == (id, stored)
  {
  }

  const SearchThinking := "🤖 AI가 열심히 생각 중입니다...\n🔍 견적을 계산하고 있습니다...\n⏳ 잠시만 기다려주세요..."
  const ChatThinking := "🤖 AI가 열심히 생각 중입니다...\n 🔍 견적을 계산하고 있습니다...\n ⏳ 잠시만 기다려주세요..."
  const ChatFailedReply := "⚠️ AI 응답을 가져오지 못했습니다. 다시 시도해주세요."
  const ChatNetworkErrorReply := "⚠️ 네트워크 오류가 발생했습니다. 다시 시도해주세요."

  /** `getFallbackAIResponse(q)`. */
  function FallbackReply(query: string): string {
    "입력하신 요청(\"" + query + "\")에 대한 기본 견적을 준비 중입니다."
  }

  /** The content a search placeholder gets when the request resolved. */
  function SearchContent(a: Option<Json>, query: string): Json {
    if Truthy(a) then a.value else JStr(FallbackReply(query))
  }

  /** The content a chat placeholder gets when the request resolved. */
  function ChatContent(a: Option<Json>): Json {
    if Truthy(a) then a.value else JStr(ChatFailedReply)
  }

  /** The `{ query }` requirement a search sends. */
  function SearchRequirement(query: string): Json {
    JObj(map["query" := JStr(query)])
  }

  /** All state fields of the component at one moment. */
  datatype AppFields = AppFields(
    screen: Screen,
    activeTab: Tab,
    user: Option<AppUser>,
    chatMessages: seq<ChatEntry>,
    lastEstimate: Option<Json>,
    savedEstimates: seq<Json>,
    galleryEstimates: seq<Json>,
    myEstimates: seq<Json>,
    comparisonList: seq<Json>,
    searchText: string,
    chatInput: string,
    isSearching: bool,
    sending: bool,
    isEstimateModalOpen: bool,
    storage: map<string, string>)

  class App {
    var screen: Screen
    var activeTab: Tab
    var user: Option<AppUser>
    var chatMessages: seq<ChatEntry>
    /** `None` is `null`. */
    var lastEstimate: Option<Json>
    var savedEstimates: seq<Json>
    var galleryEstimates: seq<Json>
    var myEstimates: seq<Json>
    var comparisonList: seq<Json>
    var searchText: string
    var chatInput: string
    var isSearching: bool
    var sending: bool
    var isEstimateModalOpen: bool
    var storage: map<string, string>
    const sessionId: string
    /** JSON.parse and JSON.stringify. */
    const codec: Codec

    function Fields(): AppFields
      reads this
    {
      AppFields(screen, activeTab, user, chatMessages, lastEstimate, savedEstimates, galleryEstimates,
        myEstimates, comparisonList, searchText, chatInput, isSearching, sending, isEstimateModalOpen, storage)
    }

    /**
     * Placeholder ids are unique, the selection holds at most three
     * estimates with distinct ids, and the last-estimate slot is empty or
     * holds a structured estimate.
     */
    predicate Valid()
      reads this
    {
      && UniqueIds(chatMessages)
      && |comparisonList| <= ComparisonCap && DistinctIds(comparisonList)
      && (lastEstimate == None || IsEstimate(lastEstimate))
    }

    /** The first render: the stored user, a stored or new session id, everything else empty. */
    constructor(storage0: map<string, string>, generated: string, codec: Codec)
      requires generated != ""
      ensures Valid()
      ensures (sessionId, storage) == GetOrCreateSessionId(storage0, generated)
      ensures this.codec == codec
      ensures Fields() == AppFields(MainScreen, All, InitialUser(storage0), [], None, [], [], [], [], "", "",
        false, false, false, storage)
    {
      var (id, stored) := GetOrCreateSessionId(storage0, generated);
      screen := MainScreen;
      activeTab := All;
      user := InitialUser(storage0);
      chatMessages := [];
      lastEstimate := None;
      savedEstimates, galleryEstimates, myEstimates, comparisonList := [], [], [], [];
      searchText, chatInput := "", "";
      isSearching, sending, isEstimateModalOpen := false, false, false;
      storage := stored;
      sessionId := id;
      this.codec := codec;
    }

    /**
     * `handleSearch` up to the request: a blank query changes nothing and
     * sends nothing; otherwise the query and a placeholder are appended,
     * the chat screen is shown and the search is marked as running.
     */
    method BeginSearch(placeholderId: string) returns (query: Option<string>)
      requires Valid() && FreshId(chatMessages, placeholderId)
      modifies this
      ensures Valid()
      ensures query == (if Trim(old(searchText)) == "" then None else Some(Trim(old(searchText))))
      ensures query == None ==> Fields() == old(Fields())
      ensures query.Some? ==> Fields() == old(Fields()).(
        isSearching := true,
        screen := ChatScreen,
        chatMessages := old(chatMessages) + [UserEntry(query.value), PlaceholderEntry(placeholderId, SearchThinking)])
    {
      var q := Trim(searchText);
      if q == "" {
        return None;
      }
      AppendKeepsUniqueIds(chatMessages, q, placeholderId, SearchThinking);
      isSearching := true;
      screen := ChatScreen;
      chatMessages := chatMessages + [UserEntry(q), PlaceholderEntry(placeholderId, SearchThinking)];
      query := Some(q);
    }

    /**
     * `handleSearch` after the request: the placeholder gets the reply or
     * the fallback text, and the last-estimate slot is overwritten with the
     * reply's structured estimate or `null`; when the request threw only
     * the fallback text is written.
     */
    method SettleSearch(placeholderId: string, query: string, settlement: Settlement)
      requires Valid()
      modifies this
      ensures Valid()
      ensures settlement.Resolved? ==>
        var a := ReplyOf(settlement.result, codec);
        Fields() == old(Fields()).(
          chatMessages := Patch(old(chatMessages), placeholderId, SearchContent(a, query)),
          lastEstimate := StructuredOf(a, codec),
          isSearching := false)
      ensures settlement == Raised ==>
        Fields() == old(Fields()).(
          chatMessages := Patch(old(chatMessages), placeholderId, JStr(FallbackReply(query))),
          isSearching := false)
    {
      PatchKeepsUniqueIds(chatMessages, placeholderId, JStr(FallbackReply(query)));
      match settlement {
        case Resolved(result) =>
          var a := ReplyOf(result, codec);
          PatchKeepsUniqueIds(chatMessages, placeholderId, SearchContent(a, query));
          chatMessages := Patch(chatMessages, placeholderId, SearchContent(a, query));
          lastEstimate := StructuredOf(a, codec);
        case Raised =>
          chatMessages := Patch(chatMessages, placeholderId, JStr(FallbackReply(query)));
      }
      isSearching := false;
    }

    /**
     * `handleSearch` from the request on: the `{ query }` requirement is
     * sent, and the placeholder is answered with the reply read from the
     * last response.
     */
    method AnswerSearch(placeholderId: string, query: string, transport: (nat, Call) -> Outcome)
      returns (calls: seq<Call>, result: ApiResult)
      requires Valid() && query != ""
      modifies this
      ensures Valid()
      ensures ChatExchange(calls, JStr(query), sessionId, transport, result)
      ensures Fields() == old(Fields()).(
        chatMessages := Patch(old(chatMessages), placeholderId, SearchContent(ReplyOf(result, codec), query)),
        lastEstimate := StructuredOf(ReplyOf(result, codec), codec),
        isSearching := false)
    {
      var settlement;
      settlement, calls := RequestEstimate(SearchRequirement(query), sessionId, transport);
      assert Get(Some(SearchRequirement(query)), "query") == Str(query);
      result := settlement.result;
      SettleSearch(placeholderId, query, settlement);
    }

    /**
     * `handleSearch` from start to finish: a non-blank query leaves the
     * transcript with exactly two new entries, the query and the answered
     * placeholder, and one or two requests were made for it.
     */
    method Search(placeholderId: string, transport: (nat, Call) -> Outcome) returns (calls: seq<Call>, result: Option<ApiResult>)
      requires Valid() && FreshId(chatMessages, placeholderId)
      modifies this
      ensures Valid()
      ensures Trim(old(searchText)) == "" ==> calls == [] && result == None && Fields() == old(Fields())
      ensures Trim(old(searchText)) != "" ==>
        var q := Trim(old(searchText));
        && result.Some?
        && ChatExchange(calls, JStr(q), sessionId, transport, result.value)
        && var a := ReplyOf(result.value, codec);
           Fields() == old(Fields()).(
             screen := ChatScreen,
             isSearching := false,
             chatMessages := old(chatMessages) + [UserEntry(q), ChatEntry(Some(placeholderId), "ai", SearchContent(a, q))],
             lastEstimate := StructuredOf(a, codec))
    {
      ghost var before := Fields();
      var query := BeginSearch(placeholderId);
      if query == None {
        return [], None;
      }
      var r;
      calls, r := AnswerSearch(placeholderId, query.value, transport);
      result := Some(r);
      var content := SearchContent(ReplyOf(r, codec), query.value);
      PatchPlaceholder(before.chatMessages, query.value, placeholderId, SearchThinking, content);
      assert chatMessages == before.chatMessages + [UserEntry(query.value), ChatEntry(Some(placeholderId), "ai", content)];
    }

    /**
     * `handleSendChat` up to the request: a blank message changes nothing;
     * otherwise the message and a placeholder are appended, the input is
     * cleared and sending is marked as running.
     */
    method BeginSendChat(placeholderId: string) returns (message: Option<string>)
      requires Valid() && FreshId(chatMessages, placeholderId)
      modifies this
      ensures Valid()
      ensures message == (if Trim(old(chatInput)) == "" then None else Some(Trim(old(chatInput))))
      ensures message == None ==> Fields() == old(Fields())
      ensures message.Some? ==> Fields() == old(Fields()).(
        chatInput := "",
        sending := true,
        chatMessages := old(chatMessages) + [UserEntry(message.value), PlaceholderEntry(placeholderId, ChatThinking)])
    {
      var m := Trim(chatInput);
      if m == "" {
        return None;
      }
      AppendKeepsUniqueIds(chatMessages, m, placeholderId, ChatThinking);
      chatMessages := chatMessages + [UserEntry(m), PlaceholderEntry(placeholderId, ChatThinking)];
      chatInput := "";
      sending := true;
      message := Some(m);
    }

    /**
     * `handleSendChat` after the request: the placeholder gets the reply
     * or the failure text and the last-estimate slot is overwritten; when
     * the request threw, the placeholder gets the network-error text.
     */
    method SettleSendChat(placeholderId: string, settlement: Settlement)
      requires Valid()
      modifies this
      ensures Valid()
      ensures settlement.Resolved? ==>
        var a := ReplyOf(settlement.result, codec);
        Fields() == old(Fields()).(
          chatMessages := Patch(old(chatMessages), placeholderId, ChatContent(a)),
          lastEstimate := StructuredOf(a, codec),
          sending := false)
      ensures settlement == Raised ==>
        Fields() == old(Fields()).(
          chatMessages := Patch(old(chatMessages), placeholderId, JStr(ChatNetworkErrorReply)),
          sending := false)
    {
      match settlement {
        case Resolved(result) =>
          var a := ReplyOf(result, codec);
          PatchKeepsUniqueIds(chatMessages, placeholderId, ChatContent(a));
          chatMessages := Patch(chatMessages, placeholderId, ChatContent(a));
          lastEstimate := StructuredOf(a, codec);
        case Raised =>
          PatchKeepsUniqueIds(chatMessages, placeholderId, JStr(ChatNetworkErrorReply));
          chatMessages := Patch(chatMessages, placeholderId, JStr(ChatNetworkErrorReply));
      }
      sending := false;
    }

    /**
     * `handleSendChat` from the request on: the message is sent, and the
     * placeholder is answered with the reply read from the last response.
     */
    method AnswerChat(placeholderId: string, message: string, transport: (nat, Call) -> Outcome)
      returns (calls: seq<Call>, result: ApiResult)
      requires Valid()
      modifies this
      ensures Valid()
      ensures ChatExchange(calls, JStr(message), sessionId, transport, result)
      ensures Fields() == old(Fields()).(
        chatMessages := Patch(old(chatMessages), placeholderId, ChatContent(ReplyOf(result, codec))),
        lastEstimate := StructuredOf(ReplyOf(result, codec), codec),
        sending := false)
    {
      result, calls := SendChatMessage(JStr(message), sessionId, transport);
      SettleSendChat(placeholderId, Resolved(result));
    }

    /**
     * `handleSendChat` from start to finish: a non-blank message leaves the
     * transcript with exactly two new entries, the message and the answered
     * placeholder, and one or two requests were made for it.
     */
    method SendChat(placeholderId: string, transport: (nat, Call) -> Outcome) returns (calls: seq<Call>, result: Option<ApiResult>)
      requires Valid() && FreshId(chatMessages, placeholderId)
      modifies this
      ensures Valid()
      ensures Trim(old(chatInput)) == "" ==> calls == [] && result == None && Fields() == old(Fields())
      ensures Trim(old(chatInput)) != "" ==>
        var m := Trim(old(chatInput));
        && result.Some?
        && ChatExchange(calls, JStr(m), sessionId, transport, result.value)
        && var a := ReplyOf(result.value, codec);
           Fields() == old(Fields()).(
             chatInput := "",
             sending := false,
             chatMessages := old(chatMessages) + [UserEntry(m), ChatEntry(Some(placeholderId), "ai", ChatContent(a))],
             lastEstimate := StructuredOf(a, codec))
    {
      var message := BeginSendChat(placeholderId);
      if message == None {
        return [], None;
      }
      var r;
      calls, r := AnswerChat(placeholderId, message.value, transport);
      result := Some(r);
      PatchPlaceholder(old(chatMessages), message.value, placeholderId, ChatThinking, ChatContent(ReplyOf(r, codec)));
    }

    /**
     * `handleSaveEstimate`: without a last estimate nothing is sent;
     * otherwise one save request for it. No state changes.
     */
    method SaveLastEstimate(saveEndpoint: string) returns (call: Option<Call>)
      requires Valid()
      ensures call.Some? <==> lastEstimate.Some?
      ensures call.Some? ==> call.value == SaveCall(lastEstimate.value, sessionId, saveEndpoint)
      ensures call.Some? ==> call.value.body.value.fields["estimate"] == lastEstimate.value
    {
      if !Truthy(lastEstimate) {
        return None;
      }
      return Some(SaveCall(lastEstimate.value, sessionId, saveEndpoint));
    }

    /**
     * The save button of a compared item: offered only to a logged-in user
     * for an item whose build is not already among `myEstimates`; it saves
     * the item's estimate, or the item itself when it has none.
     */
    method CopyToMine(item: Json, saveEndpoint: string) returns (call: Option<Call>)
      ensures call.Some? <==> user.Some? && !IsAlreadySaved(EstimateOf(item, codec), myEstimates, codec)
      ensures call.Some? ==>
        var e := EstimateOf(item, codec);
        call.value == SaveCall(if Truthy(Some(e)) then e else item, sessionId, saveEndpoint)
    {
      var estimate := EstimateOf(item, codec);
      if user.None? || IsAlreadySaved(estimate, myEstimates, codec) {
        return None;
      }
      var target := Or(Some(estimate), Some(item)).value;
      return Some(SaveCall(target, sessionId, saveEndpoint));
    }

    /**
     * `handleOpenSavedEstimates`: the modal opens; a successful list
     * request replaces the saved estimates with the unwrapped list, any
     * other outcome keeps them.
     */
    method OpenSavedEstimates(settlement: Settlement)
      modifies this
      ensures settlement.Resolved? && settlement.result.success ==>
        Fields() == old(Fields()).(isEstimateModalOpen := true, savedEstimates := ListOf(settlement.result.data))
      ensures !(settlement.Resolved? && settlement.result.success) ==>
        Fields() == old(Fields()).(isEstimateModalOpen := true)
    {
      isEstimateModalOpen := true;
      if settlement.Resolved? && settlement.result.success {
        savedEstimates := ListOf(settlement.result.data);
      }
    }

    /**
     * `loadGalleryEstimates`: a successful list request replaces the
     * gallery with the unwrapped list, any other outcome keeps it.
     */
    method LoadGallery(settlement: Settlement)
      modifies this
      ensures settlement.Resolved? && settlement.result.success ==>
        Fields() == old(Fields()).(galleryEstimates := ListOf(settlement.result.data))
      ensures !(settlement.Resolved? && settlement.result.success) ==> Fields() == old(Fields())
    {
      if settlement.Resolved? && settlement.result.success {
        galleryEstimates := ListOf(settlement.result.data);
      }
    }

    /**
     * `loadMyEstimates`: nothing is requested without a user; otherwise a
     * successful list request replaces the user's estimates.
     */
    method LoadMyEstimates(settlement: Settlement) returns (requested: bool)
      modifies this
      ensures requested <==> old(user).Some?
      ensures requested && settlement.Resolved? && settlement.result.success ==>
        Fields() == old(Fields()).(myEstimates := ListOf(settlement.result.data))
      ensures !(requested && settlement.Resolved? && settlement.result.success) ==> Fields() == old(Fields())
    {
      if user.None? {
        return false;
      }
      if settlement.Resolved? && settlement.result.success {
        myEstimates := ListOf(settlement.result.data);
      }
      return true;
    }

    /**
     * `handleDeleteEstimate(id)`: a falsy id or a declined confirmation
     * sends nothing; otherwise one DELETE is sent (`idText` is the id as
     * text), and only a successful reply removes the entries with that id.
     */
    method DeleteEstimate(id: Json, idText: string, confirmed: bool, settlement: Settlement) returns (call: Option<Call>)
      modifies this
      ensures call.Some? <==> Truthy(Some(id)) && confirmed
      ensures call.Some? ==> call.value == DeleteCall(idText)
      ensures call.Some? && settlement.Resolved? && settlement.result.success ==>
        Fields() == old(Fields()).(savedEstimates := WithoutId(old(savedEstimates), Some(id)))
      ensures !(call.Some? && settlement.Resolved? && settlement.result.success) ==> Fields() == old(Fields())
    {
      if !Truthy(Some(id)) || !confirmed {
        return None;
      }
      call := Some(DeleteCall(idText));
      if settlement.Resolved? && settlement.result.success {
        savedEstimates := WithoutId(savedEstimates, Some(id));
      }
    }

    /**
     * A click on gallery item `item`, shown at position `idx`: it is
     * enriched as the gallery shows it and toggled in the selection.
     */
    method ToggleComparison(item: Json, idx: nat)
      requires Valid()
      modifies this
      ensures Valid()
      ensures var enriched := Enrich(item, EstimateOf(item, codec), UsernameOf(item, old(activeTab), old(user)),
          TitleOf(item, idx, codec), TotalOf(item, codec));
        Fields() == old(Fields()).(comparisonList := Toggle(old(comparisonList), item, enriched))
    {
      var enriched := Enrich(item, EstimateOf(item, codec), UsernameOf(item, activeTab, user),
        TitleOf(item, idx, codec), TotalOf(item, codec));
      ToggleKeepsSelectionValid(comparisonList, item, enriched);
      comparisonList := Toggle(comparisonList, item, enriched);
    }

    /** The ✕ of a compared item: every entry with its id leaves the selection. */
    method RemoveFromComparison(item: Json)
      requires Valid()
      modifies this
      ensures Valid()
      ensures Fields() == old(Fields()).(comparisonList := WithoutId(old(comparisonList), IdOf(item)))
    {
      WithoutIdDistinct(comparisonList, IdOf(item));
      comparisonList := WithoutId(comparisonList, IdOf(item));
    }

    /** The three login keys leave the storage and the user is gone. */
    method ForgetLogin()
      modifies this
      ensures Fields() == old(Fields()).(user := None, storage := ClearLogin(old(storage)))
    {
      storage, user := ClearLogin(storage), None;
    }

    /** Back to the main screen and the "all" tab, with an empty transcript, search text and last estimate. */
    method ResetScreen()
      modifies this
      ensures screen == MainScreen && activeTab == All && chatMessages == [] && lastEstimate == None && searchText == ""
      ensures savedEstimates == old(savedEstimates) && galleryEstimates == old(galleryEstimates)
      ensures myEstimates == old(myEstimates) && comparisonList == old(comparisonList)
      ensures user == old(user) && storage == old(storage) && chatInput == old(chatInput)
      ensures isSearching == old(isSearching) && sending == old(sending) && isEstimateModalOpen == old(isEstimateModalOpen)
    {
      screen, activeTab, chatMessages, lastEstimate, searchText := MainScreen, All, [], None, "";
    }

    /** Every estimate list and the comparison selection are emptied. */
    method ClearLists()
      modifies this
      ensures savedEstimates == [] && galleryEstimates == [] && myEstimates == [] && comparisonList == []
      ensures Fields() == old(Fields()).(savedEstimates := [], galleryEstimates := [], myEstimates := [], comparisonList := [])
    {
      savedEstimates, galleryEstimates, myEstimates, comparisonList := [], [], [], [];
    }

    /**
     * `handleLogout`: whatever the server said, the stored login is removed
     * and the user, transcript, last estimate, every list, the selection
     * and the search text are cleared, on the main screen and the "all" tab.
     */
    method Logout()
      modifies this
      ensures Valid()
      ensures user == None && screen == MainScreen && chatMessages == [] && lastEstimate == None
      ensures savedEstimates == [] && galleryEstimates == [] && myEstimates == [] && comparisonList == []
      ensures activeTab == All && searchText == "" && storage == ClearLogin(old(storage))
      ensures chatInput == old(chatInput) && isSearching == old(isSearching) && sending == old(sending)
      ensures isEstimateModalOpen == old(isEstimateModalOpen)
    {
      ForgetLogin();
      ResetScreen();
      ClearLists();
    }
  }
}
