/**
 * The expression-level rules of the React client (pc_builder/src/App.jsx):
 * how a settled request turns into a chat reply and into the single
 * "last estimate" slot, how estimate lists are unwrapped from a response,
 * how a listed item is read and enriched for comparison, how the
 * comparison selection is toggled, and when an item counts as already
 * saved. The component that holds the state lives in module AppState.
 */
module Estimates {
  import opened Wrappers
  import opened Json
  import opened Text
  import opened Gateway

  // ---------------------------------------------------------------------
  // Transcript

  /** One chat message. Only the AI placeholders carry an id. */
  datatype ChatEntry = ChatEntry(id: Option<string>, role: string, content: Json)

  function UserEntry(text: string): ChatEntry {
    ChatEntry(None, "user", JStr(text))
  }

  function PlaceholderEntry(placeholderId: string, thinking: string): ChatEntry {
    ChatEntry(Some(placeholderId), "ai", JStr(thinking))
  }

  /** No two entries carry the same id. */
  predicate UniqueIds(msgs: seq<ChatEntry>) {
    forall i, j :: 0 <= i < j < |msgs| && msgs[i].id.Some? ==> msgs[i].id != msgs[j].id
  }

  /** No entry carries the id `placeholderId`. */
  predicate FreshId(msgs: seq<ChatEntry>, placeholderId: string) {
    forall i :: 0 <= i < |msgs| ==> msgs[i].id != Some(placeholderId)
  }

  /**
   * `prev.map(m => m.id === placeholderId ? { ...m, content } : m)`: every
   * entry with that id gets the new content, every other entry is kept.
   */
  function Patch(msgs: seq<ChatEntry>, placeholderId: string, content: Json): (r: seq<ChatEntry>)
    ensures |r| == |msgs|
    ensures forall i :: 0 <= i < |msgs| ==>
      r[i] == if msgs[i].id == Some(placeholderId) then msgs[i].(content := content) else msgs[i]
  {
    if msgs == [] then []
    else
      var head := if msgs[0].id == Some(placeholderId) then msgs[0].(content := content) else msgs[0];
      [head] + Patch(msgs[1..], placeholderId, content)
  }

  /** With unique ids, patching changes exactly the one entry that has the id. */
  lemma {:induction false} PatchOne(msgs: seq<ChatEntry>, k: int, content: Json)
    requires UniqueIds(msgs) && 0 <= k < |msgs| && msgs[k].id.Some?
    ensures Patch(msgs, msgs[k].id.value, content) == msgs[k := msgs[k].(content := content)]
  {
    var pid := msgs[k].id.value;
    var r := Patch(msgs, pid, content);
    forall i | 0 <= i < |msgs|
      ensures r[i] == msgs[k := msgs[k].(content := content)][i]
    {
      if i < k {
        assert msgs[i].id != msgs[k].id;
      } else if i > k {
        assert msgs[k].id != msgs[i].id;
      }
    }
  }

  /** Patching a transcript that ends in the placeholder fills in just the placeholder. */
  lemma {:induction false} PatchPlaceholder(prefix: seq<ChatEntry>, query: string, placeholderId: string, thinking: string, content: Json)
    requires FreshId(prefix, placeholderId)
    ensures Patch(prefix + [UserEntry(query), PlaceholderEntry(placeholderId, thinking)], placeholderId, content)
         == prefix + [UserEntry(query), ChatEntry(Some(placeholderId), "ai", content)]
  {
    var msgs := prefix + [UserEntry(query), PlaceholderEntry(placeholderId, thinking)];
    var r := Patch(msgs, placeholderId, content);
    assert forall i :: 0 <= i < |prefix| ==> msgs[i] == prefix[i];
  }

  /** Appending the query and a fresh placeholder keeps the ids unique. */
  lemma AppendKeepsUniqueIds(msgs: seq<ChatEntry>, query: string, placeholderId: string, thinking: string)
    requires UniqueIds(msgs) && FreshId(msgs, placeholderId)
    ensures UniqueIds(msgs + [UserEntry(query), PlaceholderEntry(placeholderId, thinking)])
  {
    var r := msgs + [UserEntry(query), PlaceholderEntry(placeholderId, thinking)];
    assert forall i :: 0 <= i < |msgs| ==> r[i] == msgs[i];
  }

  /** Patching keeps every id where it was. */
  lemma PatchKeepsUniqueIds(msgs: seq<ChatEntry>, placeholderId: string, content: Json)
    requires UniqueIds(msgs)
    ensures UniqueIds(Patch(msgs, placeholderId, content))
  {
    var r := Patch(msgs, placeholderId, content);
    assert forall i :: 0 <= i < |msgs| ==> r[i].id == msgs[i].id;
  }

  // ---------------------------------------------------------------------
  // Replies and the last-estimate slot

  /** `result.success && result.data?.success !== false`. */
  predicate IsSuccess(r: ApiResult) {
    r.success && Get(r.data, "success") != Some(JBool(false))
  }

  /** `result.data?.choices?.[0]?.message?.content`. */
  function ChoiceContent(data: Option<Json>): Option<Json> {
    Get(Get(First(Get(data, "choices")), "message"), "content")
  }

  /**
   * `aiResponse`: on a soft success, the first truthy of the choice
   * content, `estimate`, `response` and `message` of the data, else the
   * data itself if it is a string, else its JSON text; `null` (`None`)
   * otherwise.
   */
  function ReplyOf(r: ApiResult, codec: Codec): (a: Option<Json>)
    ensures !IsSuccess(r) ==> a == None
    ensures IsSuccess(r) && r.data.Some? ==> a.Some?
    ensures IsSuccess(r) && Truthy(ChoiceContent(r.data)) ==> a == ChoiceContent(r.data)
    ensures IsSuccess(r) && IsString(r.data) && !Truthy(ChoiceContent(r.data)) ==> a.Some?
  {
    if !IsSuccess(r) then None
    else
      var d := r.data;
      var last := if IsString(d) then d else if d.Some? then Str(codec.stringify(d.value)) else None;
      Or(ChoiceContent(d), Or(Get(d, "estimate"), Or(Get(d, "response"), Or(Get(d, "message"), last))))
  }

  /** `typeof aiResponse === 'string' ? JSON.parse(aiResponse) : aiResponse`; `None` where parsing throws. */
  function ParsedReply(a: Option<Json>, codec: Codec): Option<Json> {
    if IsString(a) then codec.parse(a.value.s) else a
  }

  /** `parsed && typeof parsed === 'object' && parsed.cpu && parsed.total_price !== undefined`. */
  predicate IsEstimate(p: Option<Json>) {
    Truthy(p) && IsObject(p) && Truthy(Get(p, "cpu")) && Get(p, "total_price").Some?
  }

  /**
   * The value the slot `lastEstimate` gets after a reply: the parsed reply
   * when it is a structured estimate, `null` (`None`) otherwise.
   */
  function StructuredOf(a: Option<Json>, codec: Codec): (e: Option<Json>)
    ensures e.Some? <==> IsEstimate(ParsedReply(a, codec))
    ensures e.Some? ==> e == ParsedReply(a, codec) && e.value.JObj?
  {
    var p := ParsedReply(a, codec);
    if IsEstimate(p) then p else None
  }

  /** A failed or soft-failed result leaves no estimate and asks for the fallback text. */
  lemma SoftFailureFallsBack(r: ApiResult, codec: Codec)
    requires !IsSuccess(r)
    ensures !Truthy(ReplyOf(r, codec)) && StructuredOf(ReplyOf(r, codec), codec) == None
  {
  }

  /** The test `renderAIMessage` applies: as above, but with a truthy `total_price`. */
  predicate RendersAsEstimate(content: Json, codec: Codec) {
    var d := ParsedReply(Some(content), codec);
    Truthy(d) && IsObject(d) && Truthy(Get(d, "cpu")) && Truthy(Get(d, "total_price"))
  }

  /** Whatever renders as an estimate is also what the slot keeps. */
  lemma RenderedIsStored(content: Json, codec: Codec)
    requires RendersAsEstimate(content, codec)
    ensures StructuredOf(Some(content), codec) == ParsedReply(Some(content), codec)
  {
  }

  /** An estimate priced 0 is kept in the slot but shown as plain text. */
  lemma ZeroTotalStoredNotRendered(fields: map<string, Json>, codec: Codec)
    requires "cpu" in fields && Truthy(Some(fields["cpu"]))
    requires "total_price" in fields && fields["total_price"] == JNum(0.0)
    ensures StructuredOf(Some(JObj(fields)), codec) == Some(JObj(fields))
    ensures !RendersAsEstimate(JObj(fields), codec)
  {
  }

  // ---------------------------------------------------------------------
  // Lists

  /** `res.data?.estimates || res.data?.data || []`, with anything but an array read as `[]`. */
  function ListOf(data: Option<Json>): (l: seq<Json>)
    ensures var e := Get(data, "estimates");
      Truthy(e) ==> l == (if e.value.JArr? then e.value.items else [])
    ensures var e, d := Get(data, "estimates"), Get(data, "data");
      !Truthy(e) && Truthy(d) ==> l == (if d.value.JArr? then d.value.items else [])
    ensures !Truthy(Get(data, "estimates")) && !Truthy(Get(data, "data")) ==> l == []
  {
    var list := Or(Get(data, "estimates"), Or(Get(data, "data"), Some(JArr([]))));
    if list.value.JArr? then list.value.items else []
  }

  /** An empty `estimates` array is truthy and hides a non-empty `data` array. */
  lemma EmptyEstimatesHideData(rest: seq<Json>)
    ensures ListOf(Some(JObj(map["estimates" := JArr([]), "data" := JArr(rest)]))) == []
  {
  }

  // ---------------------------------------------------------------------
  // Listed items

  /** `item?.id`. */
  function IdOf(item: Json): Option<Json> {
    Get(Some(item), "id")
  }

  /** `item?.data`, decoded when it is a string that parses; kept as it is otherwise. */
  function RawData(item: Json, codec: Codec): Option<Json> {
    var raw := Get(Some(item), "data");
    if IsString(raw) && codec.parse(raw.value.s).Some? then codec.parse(raw.value.s) else raw
  }

  /** `raw?.estimate || raw?.data?.estimate || null`. */
  function EstimateOf(item: Json, codec: Codec): (e: Json)
    ensures e == JNull || Truthy(Some(e))
  {
    var raw := RawData(item, codec);
    Or(Get(raw, "estimate"), Or(Get(Get(raw, "data"), "estimate"), Some(JNull))).value
  }

  /** `item?.title || raw?.title || "견적 #" + (idx + 1)`: never falsy. */
  function TitleOf(item: Json, idx: nat, codec: Codec): (t: Json)
    ensures Truthy(Some(t))
    ensures !Truthy(Get(Some(item), "title")) && !Truthy(Get(RawData(item, codec), "title")) ==>
      t == JStr("견적 #" + Decimal(idx + 1))
  {
    Or(Get(Some(item), "title"), Or(Get(RawData(item, codec), "title"), Str("견적 #" + Decimal(idx + 1)))).value
  }

  /** `item?.totalPrice ?? raw?.totalPrice ?? raw?.total_price ?? estimate?.total_price`. */
  function TotalOf(item: Json, codec: Codec): (t: Option<Json>)
    ensures !Nullish(Get(Some(item), "totalPrice")) ==> t == Get(Some(item), "totalPrice")
    ensures Nullish(t) ==> Nullish(Get(RawData(item, codec), "totalPrice")) && Nullish(Get(RawData(item, codec), "total_price"))
  {
    var raw := RawData(item, codec);
    Coalesce(Get(Some(item), "totalPrice"),
      Coalesce(Get(raw, "totalPrice"),
        Coalesce(Get(raw, "total_price"), Get(Some(EstimateOf(item, codec)), "total_price"))))
  }

  /** The tabs of the gallery. */
  datatype Tab = All | My

  /** The logged-in user of the component, as `initialUser` reads it from storage. */
  datatype AppUser = AppUser(token: string, username: string, name: string)

  const AnonymousUser := "익명의 사용자"
  const NoName := "익명"

  /**
   * The author shown for an item: always anonymous on the "all" tab, else
   * the item's `username`, its `user.name`, the logged-in user's name or
   * "익명", the first that is truthy (the last one unconditionally).
   */
  function UsernameOf(item: Json, tab: Tab, user: Option<AppUser>): (u: Json)
    ensures tab == All ==> u == JStr(AnonymousUser)
    ensures tab == My && Truthy(Get(Some(item), "username")) ==> u == Get(Some(item), "username").value
    ensures tab == My && !Truthy(Get(Some(item), "username")) && Truthy(Get(Get(Some(item), "user"), "name")) ==>
      u == Get(Get(Some(item), "user"), "name").value
    ensures tab == My && !Truthy(Get(Some(item), "username")) && !Truthy(Get(Get(Some(item), "user"), "name")) ==>
      u == JStr(if user.Some? then user.value.name else NoName)
  {
    if tab == All then JStr(AnonymousUser)
    else Or(Get(Some(item), "username"),
           Or(Get(Get(Some(item), "user"), "name"), Str(if user.Some? then user.value.name else NoName))).value
  }

  /** The index-named properties of an array of values: "0", "1", ... */
  function IndexFields(xs: seq<Json>): (m: map<string, Json>)
    ensures forall k :: k in m ==> |k| > 0 && IsDigit(k[0])
  {
    if xs == [] then map[]
    else IndexFields(xs[..|xs| - 1])[Decimal(|xs| - 1) := xs[|xs| - 1]]
  }

  /** A string's characters, each as a one-character string. */
  function Chars(s: string): seq<Json> {
    seq(|s|, i requires 0 <= i < |s| => JStr([s[i]]))
  }

  /** The own properties `{ ...v }` copies: an object's fields, an array's or a string's indices. */
  function Spread(v: Json): map<string, Json> {
    match v
    case JObj(f) => f
    case JArr(xs) => IndexFields(xs)
    case JStr(s) => IndexFields(Chars(s))
    case _ => map[]
  }

  /** Only objects spread a property that is not an index. */
  lemma SpreadNames(v: Json, key: string)
    requires |key| > 0 && !IsDigit(key[0])
    ensures key in Spread(v) <==> v.JObj? && key in v.fields
  {
    match v
    case JArr(xs) =>
    case JStr(s) =>
    case _ =>
  }

  /**
   * `{ ...item, estimate, username, title, totalPrice: total }`. A
   * `totalPrice` of `undefined` is left out of the object, which reads the
   * same through `?.`.
   */
  function Enrich(item: Json, estimate: Json, username: Json, title: Json, total: Option<Json>): (r: Json)
    ensures r.JObj?
    ensures IdOf(r) == IdOf(item)
    ensures Get(Some(r), "estimate") == Some(estimate) && Get(Some(r), "title") == Some(title)
    ensures Get(Some(r), "username") == Some(username) && Get(Some(r), "totalPrice") == total
    ensures forall k :: k in Spread(item) && k !in {"estimate", "username", "title", "totalPrice"} ==>
      Get(Some(r), k) == Some(Spread(item)[k])
  {
    SpreadNames(item, "id");
    var base := Spread(item);
    var fixed := map["estimate" := estimate, "username" := username, "title" := title];
    var priced := if total.Some? then map["totalPrice" := total.value] else map[];
    OverrideKeeps(base, estimate, username, title, total);
    JObj((base - {"totalPrice"}) + fixed + priced)
  }

  /** Overriding the four computed properties sets them and keeps every other property of the spread. */
  lemma OverrideKeeps(base: map<string, Json>, estimate: Json, username: Json, title: Json, total: Option<Json>)
    ensures var fixed := map["estimate" := estimate, "username" := username, "title" := title];
      var priced := if total.Some? then map["totalPrice" := total.value] else map[];
      var r := JObj((base - {"totalPrice"}) + fixed + priced);
      && Get(Some(r), "estimate") == Some(estimate) && Get(Some(r), "title") == Some(title)
      && Get(Some(r), "username") == Some(username) && Get(Some(r), "totalPrice") == total
      && (forall k :: k in base && k !in {"estimate", "username", "title", "totalPrice"} ==> Get(Some(r), k) == Some(base[k]))
  {
  }
  /**
   * The comparison card reads an enriched object as the gallery card read
   * the item: the spread keeps `data`, so the estimate found in it is the
   * same, and the title stored is the one the card computed.
   */
  lemma EnrichReadsBack(item: Json, username: Json, idx: nat, idx2: nat, codec: Codec)
    requires item.JObj?
    ensures var r := Enrich(item, EstimateOf(item, codec), username, TitleOf(item, idx, codec), TotalOf(item, codec));
      && RawData(r, codec) == RawData(item, codec)
      && EstimateOf(r, codec) == EstimateOf(item, codec)
      && TitleOf(r, idx2, codec) == TitleOf(item, idx, codec)
  {
    var r := Enrich(item, EstimateOf(item, codec), username, TitleOf(item, idx, codec), TotalOf(item, codec));
    SpreadNames(item, "data");
    assert Get(Some(r), "data") == Get(Some(item), "data");
  }


  // ---------------------------------------------------------------------
  // Comparison selection

  /** `list.some(e => e?.id === id)`. */
  predicate Selected(list: seq<Json>, id: Option<Json>) {
    exists i :: 0 <= i < |list| && IdOf(list[i]) == id
  }

  /** No two entries share an id. */
  predicate DistinctIds(list: seq<Json>) {
    forall i, j :: 0 <= i < j < |list| ==> IdOf(list[i]) != IdOf(list[j])
  }

  /** `list.filter(e => e?.id !== id)`. */
  function WithoutId(list: seq<Json>, id: Option<Json>): (r: seq<Json>)
    ensures |r| <= |list|
    ensures forall e :: e in r <==> e in list && IdOf(e) != id
    ensures !Selected(list, id) <==> r == list
    ensures !Selected(r, id)
  {
    if list == [] then []
    else
      var rest := WithoutId(list[1..], id);
      assert Selected(list, id) <==> IdOf(list[0]) == id || Selected(list[1..], id) by {
        if Selected(list[1..], id) {
          var i :| 0 <= i < |list[1..]| && IdOf(list[1..][i]) == id;
          assert IdOf(list[i + 1]) == id;
        }
        if Selected(list, id) && IdOf(list[0]) != id {
          var i :| 0 <= i < |list| && IdOf(list[i]) == id;
          assert IdOf(list[1..][i - 1]) == id;
        }
      }
      if IdOf(list[0]) == id then rest
      else
        assert list == [list[0]] + list[1..];
        [list[0]] + rest
  }

  /**
   * The filter keeps the order of what it keeps: filtering a concatenation
   * filters each part, and a single entry stays exactly when it has another
   * id. Together these fix the result entry by entry.
   */
  lemma {:induction false} WithoutIdConcat(a: seq<Json>, b: seq<Json>, id: Option<Json>)
    ensures WithoutId(a + b, id) == WithoutId(a, id) + WithoutId(b, id)
    ensures |a| == 1 ==> WithoutId(a, id) == if IdOf(a[0]) == id then [] else a
  {
    if a != [] {
      assert (a + b)[1..] == a[1..] + b;
      WithoutIdConcat(a[1..], b, id);
    } else {
      assert a + b == b;
    }
  }

  /** The filter drops every copy of an entry with the id and keeps every copy of any other. */
  lemma {:induction false} WithoutIdCounts(list: seq<Json>, id: Option<Json>, e: Json)
    ensures multiset(WithoutId(list, id))[e] == if IdOf(e) == id then 0 else multiset(list)[e]
  {
    if list != [] {
      var head, tail := list[0], list[1..];
      WithoutIdCounts(tail, id, e);
      assert list == [head] + tail;
      assert multiset(list) == multiset([head]) + multiset(tail);
      if IdOf(head) != id {
        var rest := WithoutId(tail, id);
        assert WithoutId(list, id) == [head] + rest;
        assert multiset([head] + rest) == multiset([head]) + multiset(rest);
      }
    }
  }

  /** Filtering keeps the ids distinct. */
  lemma {:induction false} WithoutIdDistinct(list: seq<Json>, id: Option<Json>)
    requires DistinctIds(list)
    ensures DistinctIds(WithoutId(list, id))
  {
    if list != [] {
      var tail := list[1..];
      assert DistinctIds(tail) by {
        forall i, j | 0 <= i < j < |tail| ensures IdOf(tail[i]) != IdOf(tail[j]) {
          assert tail[i] == list[i + 1] && tail[j] == list[j + 1];
        }
      }
      WithoutIdDistinct(tail, id);
      var rest := WithoutId(tail, id);
      if IdOf(list[0]) != id {
        var r := [list[0]] + rest;
        forall j | 0 < j < |r| ensures IdOf(r[0]) != IdOf(r[j]) {
          assert r[j] in rest;
          var k :| 0 <= k < |tail| && tail[k] == r[j];
          assert list[k + 1] == r[j];
        }
      }
    }
  }

  /** Removing the id of an entry just appended to a list without it gives the list back. */
  lemma {:induction false} WithoutIdSnoc(list: seq<Json>, x: Json)
    requires !Selected(list, IdOf(x))
    ensures WithoutId(list + [x], IdOf(x)) == list
  {
    if list == [] {
      assert [x][1..] == [];
    } else {
      assert (list + [x])[1..] == list[1..] + [x];
      forall i | 0 <= i < |list[1..]| ensures IdOf(list[1..][i]) != IdOf(x) {
        assert list[1..][i] == list[i + 1];
      }
      WithoutIdSnoc(list[1..], x);
      assert IdOf(list[0]) != IdOf(x);
      assert list == [list[0]] + list[1..];
    }
  }

  /** The most estimates that can be compared at once. */
  const ComparisonCap := 3

  /**
   * A click on an item of the gallery: a selected id is removed, an
   * unselected one is appended as `enriched` unless the cap is reached, in
   * which case nothing changes.
   */
  function Toggle(list: seq<Json>, item: Json, enriched: Json): seq<Json> {
    if Selected(list, IdOf(item)) then WithoutId(list, IdOf(item))
    else if |list| >= ComparisonCap then list
    else list + [enriched]
  }

  /** A toggle keeps the selection within the cap and its ids distinct. */
  lemma {:induction false} ToggleKeepsSelectionValid(list: seq<Json>, item: Json, enriched: Json)
    requires |list| <= ComparisonCap && DistinctIds(list)
    requires IdOf(enriched) == IdOf(item)
    ensures |Toggle(list, item, enriched)| <= ComparisonCap
    ensures DistinctIds(Toggle(list, item, enriched))
    ensures Selected(Toggle(list, item, enriched), IdOf(item)) <==>
      !Selected(list, IdOf(item)) && |list| < ComparisonCap
  {
    var id := IdOf(item);
    if Selected(list, id) {
      WithoutIdDistinct(list, id);
    } else if |list| < ComparisonCap {
      var r := list + [enriched];
      assert IdOf(r[|list|]) == id;
      forall i, j | 0 <= i < j < |r| ensures IdOf(r[i]) != IdOf(r[j]) {
        if j == |list| {
          assert r[i] == list[i];
        } else {
          assert r[i] == list[i] && r[j] == list[j];
        }
      }
    }
  }

  /** Below the cap, clicking an unselected item twice restores the selection. */
  lemma {:induction false} ToggleTwice(list: seq<Json>, item: Json, enriched: Json, again: Json)
    requires !Selected(list, IdOf(item)) && |list| < ComparisonCap
    requires IdOf(enriched) == IdOf(item)
    ensures Toggle(Toggle(list, item, enriched), item, again) == list
  {
    var r := list + [enriched];
    assert IdOf(r[|list|]) == IdOf(item);
    WithoutIdSnoc(list, enriched);
  }

  // ---------------------------------------------------------------------
  // "Already saved"

  /** The eight part categories compared. */
  const Parts: seq<string> := ["cpu", "gpu", "mboard", "ram", "ssd", "cooler", "power", "case"]

  /** `estimate[part]?.name`. */
  function PartName(estimate: Json, part: string): Option<Json> {
    Get(Get(Some(estimate), part), "name")
  }

  /** Every category names the same part in both estimates. */
  predicate SameParts(a: Json, b: Json) {
    forall i :: 0 <= i < |Parts| ==> PartName(a, Parts[i]) == PartName(b, Parts[i])
  }

  /** One entry of `myEstimates` has a build equal to `estimate`; both must be truthy. */
  predicate SameBuild(estimate: Json, mine: Json, codec: Codec) {
    var m := EstimateOf(mine, codec);
    Truthy(Some(estimate)) && Truthy(Some(m)) && SameParts(estimate, m)
  }

  /** `isAlreadySaved`: some saved entry has the same build. */
  function IsAlreadySaved(estimate: Json, mine: seq<Json>, codec: Codec): (b: bool)
    ensures b <==> exists i :: 0 <= i < |mine| && SameBuild(estimate, mine[i], codec)
  {
    if mine == [] then false
    else
      var found := IsAlreadySaved(estimate, mine[1..], codec);
      assert found ==> exists i :: 0 <= i < |mine| && SameBuild(estimate, mine[i], codec) by {
        if found {
          var i :| 0 <= i < |mine[1..]| && SameBuild(estimate, mine[1..][i], codec);
          assert SameBuild(estimate, mine[i + 1], codec);
        }
      }
      assert (exists i :: 0 <= i < |mine| && SameBuild(estimate, mine[i], codec)) ==>
        SameBuild(estimate, mine[0], codec) || found by {
        if exists i :: 0 <= i < |mine| && SameBuild(estimate, mine[i], codec) {
          var i :| 0 <= i < |mine| && SameBuild(estimate, mine[i], codec);
          if i > 0 { assert SameBuild(estimate, mine[1..][i - 1], codec); }
        }
      }
      SameBuild(estimate, mine[0], codec) || found
  }

  /** An item without an estimate is never "already saved", so it can always be copied. */
  lemma NullEstimateNeverSaved(mine: seq<Json>, codec: Codec)
    ensures !IsAlreadySaved(JNull, mine, codec)
  {
  }

  /** An estimate is already saved once an entry holding it is in `myEstimates`. */
  lemma SavedOnceListed(estimate: Json, mine: seq<Json>, k: int, codec: Codec)
    requires 0 <= k < |mine| && EstimateOf(mine[k], codec) == estimate && estimate != JNull
    ensures IsAlreadySaved(estimate, mine, codec)
  {
    assert SameBuild(estimate, mine[k], codec);
  }

  /**
   * Listing an entry whose build differs in some category leaves the verdict
   * as it was: only a match in all eight categories makes an estimate saved.
   */
  lemma DifferentBuildLeavesVerdict(estimate: Json, mine: seq<Json>, x: Json, k: int, codec: Codec)
    requires 0 <= k < |Parts| && PartName(estimate, Parts[k]) != PartName(EstimateOf(x, codec), Parts[k])
    ensures IsAlreadySaved(estimate, mine + [x], codec) == IsAlreadySaved(estimate, mine, codec)
  {
    var all := mine + [x];
    assert !SameBuild(estimate, all[|mine|], codec);
    if IsAlreadySaved(estimate, all, codec) {
      var i :| 0 <= i < |all| && SameBuild(estimate, all[i], codec);
      assert all[i] == mine[i];
    }
    if IsAlreadySaved(estimate, mine, codec) {
      var i :| 0 <= i < |mine| && SameBuild(estimate, mine[i], codec);
      assert all[i] == mine[i];
    }
  }
}
