/**
 * The conversation list of the side bar (`src/components/Sidebar/Sidebar.jsx`): which
 * summaries are listed and under what title, and what a click on one of them sends.
 */
module Sidebar {
  import opened Wrappers
  import opened Text
  import opened Frames
  import opened Seqs

  /** What a click on a list entry does: nothing, or select the entry and send one frame. */
  datatype Click = Ignored | Selected(entry: HistoryEntry, frame: Outbound)

  /**
   * `handleConversationClick`: ignored while the bot is typing and for an entry without
   * `intraction_id`; otherwise the entry is selected and one `get_historical_messages`
   * frame for its conversation is sent, carrying the user's email when there is a user.
   */
  function ConversationClick(isBotTyping: bool, entry: Option<HistoryEntry>, currentUser: Option<User>): (r: Click)
    ensures r.Ignored? <==> isBotTyping || entry.None? || entry.value.intractionId == ""
    ensures r.Selected? ==> r.entry == entry.value && r.frame.HistoricalMessagesRequest?
    ensures r.Selected? ==> r.frame.conversationId == entry.value.intractionId != ""
    ensures r.Selected? ==> r.frame.userEmail == if currentUser.Some? then currentUser.value.email else ""
  {
    if isBotTyping then Ignored
    else if entry.None? || entry.value.intractionId == "" then Ignored
    else
      var email := if currentUser.Some? then currentUser.value.email else "";
      Selected(entry.value, HistoricalMessagesRequest(entry.value.intractionId, email))
  }

  /** One listed conversation: its React key and the title shown. */
  datatype Item = Item(key: string, title: string)

  /** The `<li>` the `map` callback builds for the entry at position `j`. */
  function ItemAt(e: HistoryEntry, j: nat): (it: Item)
    ensures it.key == e.intractionId
    ensures e.interactionTitle != "" ==> it.title == e.interactionTitle
    ensures e.interactionTitle == "" ==> it.title == "Conversation #" + NatToString(j + 1)
  {
    Item(e.intractionId, if e.interactionTitle != "" then e.interactionTitle else "Conversation #" + NatToString(j + 1))
  }

  /** The item every entry would get if none were dropped. */
  function AllItems(hs: seq<HistoryEntry>): seq<Item> {
    seq(|hs|, j requires 0 <= j < |hs| => ItemAt(hs[j], j))
  }

  /** `map(...).filter(Boolean)` from position `from` on: the items of the entries that have an id. */
  function Listed(hs: seq<HistoryEntry>, from: nat): (r: seq<Item>)
    requires from <= |hs|
    ensures |r| <= |hs| - from
    ensures forall it :: it in r <==> exists j :: from <= j < |hs| && hs[j].intractionId != "" && it == ItemAt(hs[j], j)
    ensures r == [] <==> forall j :: from <= j < |hs| ==> hs[j].intractionId == ""
    decreases |hs| - from
  {
    if from == |hs| then []
    else
      var rest := Listed(hs, from + 1);
      if hs[from].intractionId == "" then rest else [ItemAt(hs[from], from)] + rest
  }

  /** The list's contents: a "no history" line, or the items (possibly none). */
  datatype Rendered = NoHistory | Items(items: seq<Item>)

  /**
   * `renderHistory`: "no history" exactly when the prop is not an array or is empty;
   * otherwise the listed items, every one of them with a non-empty key, and none at
   * all (but no "no history" line either) when no entry has an id.
   */
  function RenderHistory(historicalMessages: Option<seq<HistoryEntry>>): (r: Rendered)
    ensures r.NoHistory? <==> historicalMessages.None? || historicalMessages.value == []
    ensures r.Items? ==> |r.items| <= |historicalMessages.value|
    ensures r.Items? ==> forall it :: it in r.items ==> it.key != ""
    ensures r.Items? ==> (r.items == [] <==> forall j :: 0 <= j < |historicalMessages.value| ==> historicalMessages.value[j].intractionId == "")
  {
    if historicalMessages.None? || historicalMessages.value == [] then NoHistory
    else Items(Listed(historicalMessages.value, 0))
  }

  /** The listed items keep the order of the entries they come from. */
  lemma {:induction false} ListedInOrder(hs: seq<HistoryEntry>, from: nat)
    requires from <= |hs|
    ensures IsSubsequence(Listed(hs, from), AllItems(hs)[from..])
    decreases |hs| - from
  {
    if from < |hs| {
      ListedInOrder(hs, from + 1);
      var all := AllItems(hs)[from..];
      assert all[1..] == AllItems(hs)[from + 1..];
      var r := Listed(hs, from);
      if hs[from].intractionId == "" {
        if r != [] {
          SubsequenceOfTail(r, all);
        }
      } else {
        assert r[0] == all[0] && r[1..] == Listed(hs, from + 1);
      }
    }
  }

  /** An item has a React key: its entry has an id. */
  predicate HasKey(it: Item) {
    it.key != ""
  }

  /** The listed items are exactly `AllItems(hs)[from..]` with the keyless ones filtered out. */
  lemma {:induction false} ListedIsFilter(hs: seq<HistoryEntry>, from: nat)
    requires from <= |hs|
    ensures Listed(hs, from) == Filter(AllItems(hs)[from..], HasKey)
    decreases |hs| - from
  {
    if from < |hs| {
      ListedIsFilter(hs, from + 1);
      var all := AllItems(hs)[from..];
      assert all[0] == ItemAt(hs[from], from) && all[1..] == AllItems(hs)[from + 1..];
    }
  }

  /** When every entry has an id, each entry is listed, in order, under its own title or its position. */
  lemma {:induction false} ListedAll(hs: seq<HistoryEntry>, from: nat)
    requires from <= |hs|
    requires forall j :: 0 <= j < |hs| ==> hs[j].intractionId != ""
    ensures Listed(hs, from) == AllItems(hs)[from..]
    decreases |hs| - from
  {
    if from < |hs| {
      ListedAll(hs, from + 1);
      assert AllItems(hs)[from..] == [AllItems(hs)[from]] + AllItems(hs)[from + 1..];
    }
  }
}
