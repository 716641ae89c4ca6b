/**
 * The chat-history tab (components/profile/history-tab.tsx): the checkbox
 * selection and the deletion of the selected chats. The delete endpoint is a
 * parameter.
 */
module HistoryTab {
  import opened Wrappers

  datatype Chat = Chat(id: string, title: string)

  const DeleteFailed: string := "Failed to delete chats"
  /** The message of the TypeError from reading `deletedCount` of a missing `data.data`. */
  const NoCount: string := "Cannot read properties of undefined (reading 'deletedCount')"

  /** `selectedChats.includes(chat.id)` */
  predicate IsChecked(selected: seq<string>, id: string) {
    id in selected
  }

  /** `prev.filter(x => x !== id)` */
  function Without(prev: seq<string>, id: string): (r: seq<string>)
    ensures id !in r
    ensures forall x :: x != id ==> multiset(r)[x] == multiset(prev)[x]
    ensures |r| <= |prev|
  {
    if prev == [] then []
    else
      var rest := Without(prev[1..], id);
      assert prev == [prev[0]] + prev[1..];
      if prev[0] == id then rest else [prev[0]] + rest
  }

  /** onCheckedChange: checking appends the id, unchecking removes every occurrence of it. */
  function Toggle(prev: seq<string>, id: string, checked: bool): (r: seq<string>)
    ensures checked ==> r == prev + [id]
    ensures !checked ==> r == Without(prev, id)
  {
    if checked then prev + [id] else Without(prev, id)
  }

  /** A checkbox shows the state it was last set to, whichever other chats are selected. */
  lemma ToggleShows(prev: seq<string>, id: string, checked: bool)
    ensures IsChecked(Toggle(prev, id, checked), id) == checked
  {
    if checked {
      assert Toggle(prev, id, checked)[|prev|] == id;
    }
  }

  /** Toggling one chat leaves the other checkboxes as they were. */
  lemma ToggleKeepsOthers(prev: seq<string>, id: string, other: string, checked: bool)
    requires other != id
    ensures IsChecked(Toggle(prev, id, checked), other) == IsChecked(prev, other)
  {
    var r := Toggle(prev, id, checked);
    if !checked {
      assert other in r <==> multiset(r)[other] > 0;
      assert other in prev <==> multiset(prev)[other] > 0;
    }
  }

  /** `history.filter(h => !selectedChats.includes(h.id))` */
  function Remaining(history: seq<Chat>, selected: seq<string>): (r: seq<Chat>)
    ensures |r| <= |history|
    ensures forall c :: c in r <==> c in history && c.id !in selected
  {
    if history == [] then []
    else (if history[0].id in selected then [] else [history[0]]) + Remaining(history[1..], selected)
  }

  /** Filtering splits over concatenation, so the kept chats stay in their original order. */
  lemma {:induction false} RemainingAppend(a: seq<Chat>, b: seq<Chat>, selected: seq<string>)
    ensures Remaining(a + b, selected) == Remaining(a, selected) + Remaining(b, selected)
    decreases |a|
  {
    if a == [] {
      assert a + b == b;
    } else {
      assert (a + b)[1..] == a[1..] + b;
      RemainingAppend(a[1..], b, selected);
    }
  }

  /** The delete endpoint's reply: `response.ok`, `data.error` ('' when absent) and `data.data.deletedCount`. */
  datatype DeleteReply = DeleteReply(ok: bool, error: string, deletedCount: Option<int>)

  datatype Toast = NoToast | Deleted(count: int) | DeleteError(message: string)

  /** The try block of handleDelete: `Success` carries the deleted count. */
  function DeleteOutcome(reply: Result<DeleteReply>): (r: Result<int>)
    ensures r.Success? <==> reply.Success? && reply.value.ok && reply.value.deletedCount.Some?
    ensures reply.Success? && !reply.value.ok ==> r == Failure(if reply.value.error != "" then reply.value.error else DeleteFailed)
    ensures reply.Success? && reply.value.ok && reply.value.deletedCount.None? ==> r == Failure(NoCount)
    ensures reply.Failure? ==> r == Failure(reply.error)
  {
    match reply
    case Failure(e) => Failure(e)
    case Success(DeleteReply(ok, error, count)) =>
      if !ok then Failure(if error != "" then error else DeleteFailed)
      else if count.None? then Failure(NoCount)
      else Success(count.value)
  }

  class Tab {
    var selectedChats: seq<string>
    var history: seq<Chat>
    var showDeleteDialog: bool

    constructor (history: seq<Chat>)
      ensures selectedChats == [] && this.history == history && !showDeleteDialog
    {
      selectedChats := [];
      this.history := history;
      showDeleteDialog := false;
    }

    method Check(id: string, checked: bool)
      modifies this
      ensures selectedChats == Toggle(old(selectedChats), id, checked)
      ensures history == old(history) && showDeleteDialog == old(showDeleteDialog)
    {
      selectedChats := Toggle(selectedChats, id, checked);
    }

    /** The 'Delete Selected' button. */
    method AskDelete()
      modifies this
      ensures showDeleteDialog
      ensures selectedChats == old(selectedChats) && history == old(history)
    {
      showDeleteDialog := true;
    }

    /**
     * handleDelete. With nothing selected nothing is sent; otherwise the
     * selected ids are sent. On success the history keeps exactly the chats
     * not selected and the selection and the dialog close; on failure nothing
     * changes.
     */
    method Delete(server: seq<string> -> Result<DeleteReply>) returns (sent: Option<seq<string>>, toast: Toast)
      modifies this
      ensures old(selectedChats) == [] ==>
        sent == None && toast == NoToast && selectedChats == old(selectedChats) && history == old(history) && showDeleteDialog == old(showDeleteDialog)
      ensures old(selectedChats) != [] ==> sent == Some(old(selectedChats))
      ensures old(selectedChats) != [] && DeleteOutcome(server(old(selectedChats))).Success? ==>
        && toast == Deleted(DeleteOutcome(server(old(selectedChats))).value)
        && history == Remaining(old(history), old(selectedChats)) && selectedChats == [] && !showDeleteDialog
      ensures old(selectedChats) != [] && DeleteOutcome(server(old(selectedChats))).Failure? ==>
        && toast == DeleteError(DeleteOutcome(server(old(selectedChats))).error)
        && selectedChats == old(selectedChats) && history == old(history) && showDeleteDialog == old(showDeleteDialog)
    {
      if |selectedChats| == 0 {
        return None, NoToast;
      }
      sent := Some(selectedChats);
      var outcome := DeleteOutcome(server(selectedChats));
      if outcome.Success? {
        toast := Deleted(outcome.value);
        history := Remaining(history, selectedChats);
        selectedChats := [];
        showDeleteDialog := false;
      } else {
        toast := DeleteError(outcome.error);
      }
    }
  }

  /** With an empty selection the filter keeps the whole history. */
  lemma {:induction false} NothingSelectedKeepsAll(history: seq<Chat>)
    ensures Remaining(history, []) == history
    decreases |history|
  {
    if history != [] {
      NothingSelectedKeepsAll(history[1..]);
      assert history == [history[0]] + history[1..];
    }
  }
}
