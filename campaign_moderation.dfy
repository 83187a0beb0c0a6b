/**
 * The pending-campaign moderation page: an employee approves a seller's campaign,
 * or rejects it with a written reason. While a request is outstanding the action
 * buttons are disabled.
 *
 * The page's handlers are asynchronous. Each one is modelled as the synchronous part
 * it runs up to its first `await` (`Approve`, `Reject`) and the continuations that run
 * when the awaited request settles (`PostSettled`, `ListSettled`). The request outcome
 * is a parameter: success or failure, and for the list fetch the data it returned.
 */
module CampaignModeration {
  import opened Options
  import JsText

  datatype Product = Product(title: string)

  datatype CampaignProduct = CampaignProduct(allocatedCredits: int, remainingCredits: int, product: Product)

  datatype Seller = Seller(id: int, name: string, email: string, businessName: Option<string>)

  datatype Campaign = Campaign(
    id: int, name: string, status: string, totalCredits: int, seller: Seller, products: seq<CampaignProduct>)

  /** `seller.businessName ?? seller.name`: the business name whenever it is present, even when empty. */
  function DisplayName(seller: Seller): (shown: string)
    ensures seller.businessName.Some? ==> shown == seller.businessName.value
    ensures seller.businessName.None? ==> shown == seller.name
  {
    match seller.businessName
    case Some(b) => b
    case None => seller.name
  }

  /** Unlike a `||` fallback, `??` keeps an empty business name, so the name shown can be blank. */
  lemma EmptyBusinessNameKept(seller: Seller)
    requires seller.businessName == Some("")
    ensures DisplayName(seller) == ""
  {
  }

  /** `disabled={actionLoading !== null}` of the Approve and Reject buttons; while they are enabled no card reads "Approving...". */
  predicate ActionButtonsDisabled(actionLoading: Option<int>)
    ensures !ActionButtonsDisabled(actionLoading) ==> forall id :: ApproveCaption(id, actionLoading) == "Approve"
  {
    actionLoading.Some?
  }

  /**
   * `disabled={!reason.trim() || actionLoading !== null}` of Confirm Rejection: disabled exactly when
   * the reason is all white space or an action is in flight.
   */
  predicate ConfirmDisabled(reason: string, actionLoading: Option<int>)
    ensures ConfirmDisabled(reason, actionLoading) <==> JsText.AllWhiteSpace(reason) || actionLoading.Some?
  {
    JsText.TrimEmptyIff(reason);
    JsText.Trim(reason) == "" || actionLoading.Some?
  }

  /** The text of a campaign's Approve button. */
  function ApproveCaption(id: int, actionLoading: Option<int>): (caption: string)
    ensures caption == "Approving..." || caption == "Approve"
    ensures caption == "Approving..." <==> actionLoading == Some(id)
  {
    if actionLoading == Some(id) then "Approving..." else "Approve"
  }

  /** The two action buttons of one campaign card. */
  datatype CardButtons = CardButtons(approveCaption: string, approveDisabled: bool, rejectDisabled: bool)

  function ButtonsOf(c: Campaign, actionLoading: Option<int>): (b: CardButtons)
    ensures b.approveDisabled == b.rejectDisabled == actionLoading.Some?
    ensures b.approveCaption == ApproveCaption(c.id, actionLoading)
  {
    CardButtons(ApproveCaption(c.id, actionLoading), ActionButtonsDisabled(actionLoading), ActionButtonsDisabled(actionLoading))
  }

  /**
   * Across all cards: while an action is in flight every button is disabled,
   * and "Approving..." appears on the cards of that campaign id only.
   */
  lemma CardsWhileInFlight(cs: seq<Campaign>, id: int)
    ensures forall i :: 0 <= i < |cs| ==> ButtonsOf(cs[i], Some(id)).approveDisabled && ButtonsOf(cs[i], Some(id)).rejectDisabled
    ensures forall i :: 0 <= i < |cs| ==> (ButtonsOf(cs[i], Some(id)).approveCaption == "Approving..." <==> cs[i].id == id)
  {
  }

  /** The action a pending request belongs to. */
  datatype Action = ApproveAction(id: int) | RejectAction(id: int)

  /** The continuation the page is waiting on, if any. */
  datatype Pending =
    | Idle
    | AwaitingPost(action: Action)               // the approve or reject POST
    | AwaitingList(after: Option<Action>)        // `loadCampaigns`, on mount or after a successful POST

  /** Requests sent to the backend. */
  datatype Request = ListPending | ApprovePost(id: int) | RejectPost(id: int, reason: string)

  class ModerationPage {
    var campaigns: seq<Campaign>
    var loading: bool
    var actionLoading: Option<int>
    var rejecting: Option<Campaign>
    var reason: string
    var pending: Pending
    var requests: seq<Request>

    /** `loading` and `actionLoading` always say what the page is waiting on. */
    ghost predicate Valid()
      reads this
    {
      match pending
      case Idle => !loading && actionLoading.None?
      case AwaitingPost(a) => !loading && actionLoading == Some(a.id)
      case AwaitingList(after) =>
        loading && actionLoading == (if after.Some? then Some(after.value.id) else None)
    }

    /** The page mounts and its effect starts `loadCampaigns`. */
    constructor ()
      ensures Valid()
      ensures campaigns == [] && loading && actionLoading == None
      ensures rejecting == None && reason == ""
      ensures pending == AwaitingList(None) && requests == [ListPending]
    {
      campaigns := [];
      actionLoading := None;
      rejecting := None;
      reason := "";
      loading := true;
      requests := [ListPending];
      pending := AwaitingList(None);
    }

    /** The list fetch settles: the data replaces the list on success, a failure keeps it; `loading` and `actionLoading` clear. */
    method ListSettled(outcome: Option<seq<Campaign>>)
      requires Valid() && pending.AwaitingList?
      modifies this
      ensures Valid() && pending == Idle
      ensures campaigns == if outcome.Some? then outcome.value else old(campaigns)
      ensures !loading && actionLoading == None
      ensures rejecting == old(rejecting) && reason == old(reason) && requests == old(requests)
    {
      if outcome.Some? {
        campaigns := outcome.value;
      }
      loading := false;
      if pending.after.Some? {
        actionLoading := None;
      }
      pending := Idle;
    }

    /** `approve(id)` up to its first `await`, run from an enabled Approve button. */
    method Approve(id: int)
      requires Valid() && !loading && !ActionButtonsDisabled(actionLoading)
      modifies this
      ensures Valid() && pending == AwaitingPost(ApproveAction(id))
      ensures actionLoading == Some(id) && requests == old(requests) + [ApprovePost(id)]
      ensures campaigns == old(campaigns) && loading == old(loading)
      ensures rejecting == old(rejecting) && reason == old(reason)
    {
      actionLoading := Some(id);
      requests := requests + [ApprovePost(id)];
      pending := AwaitingPost(ApproveAction(id));
    }

    /** The Reject button of a card opens the rejection dialog for that campaign. */
    method SelectForRejection(c: Campaign)
      requires Valid() && !loading && !ActionButtonsDisabled(actionLoading)
      modifies this`rejecting
      ensures rejecting == Some(c)
    {
      rejecting := Some(c);
    }

    /** Typing into the reason box. */
    method EditReason(text: string)
      modifies this`reason
      ensures reason == text
    {
      reason := text;
    }

    /** Go Back closes the dialog and forgets the reason. */
    method GoBack()
      modifies this`rejecting, this`reason
      ensures rejecting == None && reason == ""
    {
      rejecting := None;
      reason := "";
    }

    /**
     * `reject()` up to its first `await`, run from an enabled Confirm Rejection button: nothing is
     * in flight and the reason is not all white space, which by the contract of `ConfirmDisabled` is exactly
     * `!ConfirmDisabled(reason, actionLoading)`. With no campaign selected it returns at once and
     * changes nothing.
     */
    method Reject()
      requires Valid() && !loading && actionLoading.None? && !JsText.AllWhiteSpace(reason)
      modifies this
      ensures Valid()
      ensures old(rejecting).None? ==>
        pending == old(pending) && actionLoading == old(actionLoading) && requests == old(requests)
      ensures old(rejecting).Some? ==>
        && pending == AwaitingPost(RejectAction(old(rejecting).value.id))
        && actionLoading == Some(old(rejecting).value.id)
        && requests == old(requests) + [RejectPost(old(rejecting).value.id, old(reason))]
      ensures campaigns == old(campaigns) && loading == old(loading)
      ensures rejecting == old(rejecting) && reason == old(reason)
    {
      assert pending == Idle;
      if rejecting.Some? {
        var id := rejecting.value.id;
        actionLoading := Some(id);
        requests := requests + [RejectPost(id, reason)];
        pending := AwaitingPost(RejectAction(id));
      }
    }

    /**
     * The approve or reject POST settles. On failure the `finally` clears `actionLoading`
     * and the error propagates. On success a rejection clears the dialog and its reason, and
     * both actions go on to reload the list, keeping `actionLoading` until that settles.
     */
    method PostSettled(ok: bool)
      requires Valid() && pending.AwaitingPost?
      modifies this
      ensures Valid()
      ensures !ok ==> pending == Idle && actionLoading == None && requests == old(requests)
      ensures !ok ==> rejecting == old(rejecting) && reason == old(reason)
      ensures ok ==> pending == AwaitingList(Some(old(pending).action)) && loading
      ensures ok ==> actionLoading == old(actionLoading) && requests == old(requests) + [ListPending]
      ensures ok && old(pending).action.RejectAction? ==> rejecting == None && reason == ""
      ensures ok && old(pending).action.ApproveAction? ==> rejecting == old(rejecting) && reason == old(reason)
      ensures campaigns == old(campaigns)
    {
      var action := pending.action;
      if !ok {
        actionLoading := None;
        pending := Idle;
        return;
      }
      if action.RejectAction? {
        rejecting := None;
        reason := "";
      }
      loading := true;
      requests := requests + [ListPending];
      pending := AwaitingList(Some(action));
    }

    /**
     * A whole `approve(id)` call with nothing interleaved: the POST succeeds or fails, and on
     * success the reload returns `list` or fails. Either way `actionLoading` ends cleared.
     */
    method RunApprove(id: int, postOk: bool, list: Option<seq<Campaign>>)
      requires Valid() && !loading && !ActionButtonsDisabled(actionLoading)
      modifies this
      ensures Valid() && pending == Idle && actionLoading == None && !loading
      ensures rejecting == old(rejecting) && reason == old(reason)
      ensures requests == old(requests) + [ApprovePost(id)] + (if postOk then [ListPending] else [])
      ensures campaigns == if postOk && list.Some? then list.value else old(campaigns)
    {
      Approve(id);
      PostSettled(postOk);
      if postOk {
        ListSettled(list);
      }
    }

    /**
     * A whole `reject()` call with nothing interleaved. A successful POST closes the dialog and
     * clears the reason; a failed one keeps both. Either way `actionLoading` ends cleared.
     */
    method RunReject(postOk: bool, list: Option<seq<Campaign>>)
      requires Valid() && !loading && actionLoading.None? && !JsText.AllWhiteSpace(reason)
      modifies this
      ensures Valid() && pending == Idle && actionLoading == None && !loading
      ensures old(rejecting).None? ==> rejecting == None && reason == old(reason) && requests == old(requests)
      ensures old(rejecting).Some? && postOk ==> rejecting == None && reason == ""
      ensures old(rejecting).Some? && !postOk ==> rejecting == old(rejecting) && reason == old(reason)
      ensures campaigns == if old(rejecting).Some? && postOk && list.Some? then list.value else old(campaigns)
      ensures old(rejecting).Some? ==>
        requests == old(requests) + [RejectPost(old(rejecting).value.id, old(reason))] + (if postOk then [ListPending] else [])
    {
      Reject();
      if pending.AwaitingPost? {
        PostSettled(postOk);
        if postOk {
          ListSettled(list);
        }
      }
    }
  }

  /** While an approve or reject POST is outstanding, no action button can be pressed and the card shows "Approving..." for an approval. */
  lemma ButtonsLockedWhilePosting(p: ModerationPage)
    requires p.Valid() && p.pending.AwaitingPost?
    ensures ActionButtonsDisabled(p.actionLoading)
    ensures ConfirmDisabled(p.reason, p.actionLoading)
    ensures p.pending.action.ApproveAction? ==> ApproveCaption(p.pending.action.id, p.actionLoading) == "Approving..."
  {
  }

  /** Whenever nothing is outstanding, the action buttons are enabled again. */
  lemma ButtonsFreeWhenIdle(p: ModerationPage)
    requires p.Valid() && p.pending == Idle
    ensures !p.loading && !ActionButtonsDisabled(p.actionLoading)
  {
  }
}
