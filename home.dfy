/** The Home component (client/src/components/Home.jsx): the token-expiry effect,
    which logs out at once or arms one logout timer, and the dispatch from the
    active sidebar item to the content shown. Timers are explicit: the page keeps
    the multiset of its scheduled timers and the cleanup of the last effect run,
    and a timer firing is an event of its own. */
module Home {
  import opened Strings
  import opened Js
  import App

  /** The margin below which a session counts as already over, in ms. */
  const ExpiryMarginMs: int := 1000

  /** A pending `setTimeout(onLogout, delay)`. */
  datatype Timer = Timer(delay: int)

  datatype ExpiryAction = LogoutNow | Arm(delay: int)

  /** The guard of the expiry effect. */
  function ExpiryDecision(user: Json, tokenExpiresAt: JsNum, nowMs: int): (d: ExpiryAction)
    ensures d == LogoutNow <==>
      !Truthy(user) || tokenExpiresAt == Finite(0) || tokenExpiresAt.NaN? || tokenExpiresAt.n - nowMs <= ExpiryMarginMs
    ensures d.Arm? ==> d.delay > ExpiryMarginMs && tokenExpiresAt == Finite(nowMs + d.delay)
  {
    if !Truthy(user) || !NumTruthy(tokenExpiresAt) || tokenExpiresAt.n - nowMs <= ExpiryMarginMs then LogoutNow
    else Arm(tokenExpiresAt.n - nowMs)
  }

  /** The views `renderContent` chooses from. */
  datatype Content =
    | DashboardView
    | InventoryView
    | PurchasingView
    | PriceEditorView
    | UsersView
    | SignupView(title: string, isInternalCreation: bool)
    | ComingSoon(heading: string)

  const ComingSoonSuffix: string := " feature coming soon!"

  /** `activeItem.toUpperCase().replace("-", " ")` followed by the suffix. */
  function PlaceholderTitle(item: string): (r: string)
    ensures |r| == |item| + |ComingSoonSuffix| && r[|item|..] == ComingSoonSuffix
    ensures '-' !in item ==> forall j :: 0 <= j < |item| ==> r[j] == UpperChar(item[j])
    ensures '-' in item ==>
      var h := IndexOf(item, '-');
      && r[h] == ' '
      && forall j :: 0 <= j < |item| && j != h ==> r[j] == UpperChar(item[j])
  {
    UpperKeepsHyphens(item);
    ReplaceFirst(ToUpper(item), '-', ' ') + ComingSoonSuffix
  }

  /** Upper-casing neither adds nor moves a '-'. */
  lemma UpperKeepsHyphens(item: string)
    ensures '-' in ToUpper(item) <==> '-' in item
    ensures '-' in item ==> IndexOf(ToUpper(item), '-') == IndexOf(item, '-')
  {
    var upper := ToUpper(item);
    assert forall j :: 0 <= j < |item| ==> (upper[j] == '-' <==> item[j] == '-');
    if '-' in item {
      var h := IndexOf(item, '-');
      assert upper[h] == '-';
      assert '-' !in upper[..h] by {
        assert forall j :: 0 <= j < h ==> upper[..h][j] == UpperChar(item[..h][j]);
      }
      IndexOfIsFirst(upper, '-', h);
    } else {
      assert '-' !in upper by {
        assert forall j :: 0 <= j < |upper| ==> upper[j] != '-';
      }
    }
  }

  /** renderContent: six item ids have their own view, every other id a placeholder. */
  function RenderContent(activeItem: string): (c: Content)
    ensures activeItem == "dashboard" <==> c == DashboardView
    ensures activeItem == "inventory" <==> c == InventoryView
    ensures activeItem == "purchasing" <==> c == PurchasingView
    ensures activeItem == "inbound-pricing" <==> c == PriceEditorView
    ensures activeItem == "show-users" <==> c == UsersView
    ensures activeItem == "create-users" <==> c.SignupView?
    ensures c.SignupView? ==> c == SignupView("Create New System User", true)
    ensures activeItem !in KnownItems ==> c == ComingSoon(PlaceholderTitle(activeItem))
  {
    match activeItem
    case "dashboard" => DashboardView
    case "inventory" => InventoryView
    case "purchasing" => PurchasingView
    case "inbound-pricing" => PriceEditorView
    case "show-users" => UsersView
    case "create-users" => SignupView("Create New System User", true)
    case _ => ComingSoon(PlaceholderTitle(activeItem))
  }

  const KnownItems: set<string> :=
    {"dashboard", "inventory", "purchasing", "inbound-pricing", "show-users", "create-users"}

  /** What Home renders: a placeholder without a user, else the active content. */
  datatype View = Loading(text: string) | Main(content: Content)

  /** The timers a cleanup clears: its own one, or none when the run returned no cleanup. */
  function Cleared(cleanup: Option<Timer>): (m: multiset<Timer>)
    ensures |m| <= 1
    ensures forall t :: t in m <==> cleanup == Some(t)
  {
    if cleanup.Some? then multiset{cleanup.value} else multiset{}
  }

  /** Everything a cleanup may leave scheduled is at most one timer. */
  lemma {:induction false} AtMostOneTimer(pending: multiset<Timer>, cleanup: Option<Timer>)
    requires pending <= Cleared(cleanup)
    ensures |pending| <= 1
    ensures cleanup.None? ==> pending == multiset{}
  {
    if cleanup.Some? && pending != multiset{} {
      var t :| t in pending;
      assert pending[t] == 1 && pending == multiset{t};
    }
  }

  class HomePage {
    var activeItem: string
    /** The timers of this page that are scheduled: neither fired nor cleared. */
    var pending: multiset<Timer>
    /** The cleanup the last effect run returned: the timer it clears, or None. */
    var cleanup: Option<Timer>

    /** Every scheduled timer is the one the current cleanup would clear. */
    predicate Valid()
      reads this
    {
      pending <= Cleared(cleanup)
    }

    constructor ()
      ensures Valid() && activeItem == "dashboard" && pending == multiset{} && cleanup == None
    {
      activeItem := "dashboard";
      pending, cleanup := multiset{}, None;
    }

    /** One run of the expiry effect, for the App's current user and storage:
        the previous run's cleanup clears its timer, then either onLogout runs at
        once (no cleanup) or one new timer is scheduled with a cleanup for it. The
        stored expiry is only read. */
    method RunExpiryEffect(app: App.Browser, nowMs: int)
      requires Valid()
      modifies this, app
      ensures Valid() && activeItem == old(activeItem)
      ensures var d := ExpiryDecision(old(app.user), App.StoredExpiry(old(app.storage)), nowMs);
        match d
        case LogoutNow =>
          && pending == old(pending) - Cleared(old(cleanup)) && cleanup == None
          && pending == multiset{}
          && app.storage == old(app.storage) - App.SessionKeys && app.user == JNull
        case Arm(delay) =>
          && pending == old(pending) - Cleared(old(cleanup)) + multiset{Timer(delay)}
          && cleanup == Some(Timer(delay))
          && pending == multiset{Timer(delay)}
          && app.storage == old(app.storage) && app.user == old(app.user)
      ensures App.ExpiryKey in app.storage ==>
        App.ExpiryKey in old(app.storage) && app.storage[App.ExpiryKey] == old(app.storage)[App.ExpiryKey]
    {
      // cleanup of the previous run: clearTimeout(timerId)
      pending := pending - Cleared(cleanup);
      cleanup := None;
      assert pending == multiset{};
      var tokenExpiresAt := App.StoredExpiry(app.storage);
      var d := ExpiryDecision(app.user, tokenExpiresAt, nowMs);
      if d == LogoutNow {
        app.HandleLogout();
        return;
      }
      pending := pending + multiset{Timer(d.delay)};
      cleanup := Some(Timer(d.delay));
    }

    /** A scheduled timer fires: onLogout runs and that timer is spent. */
    method FireTimer(t: Timer, app: App.Browser)
      requires Valid() && t in pending
      modifies this, app
      ensures Valid() && activeItem == old(activeItem) && cleanup == old(cleanup)
      ensures pending == old(pending) - multiset{t} && pending == multiset{}
      ensures app.storage == old(app.storage) - App.SessionKeys && app.user == JNull
    {
      AtMostOneTimer(pending, cleanup);
      pending := pending - multiset{t};
      app.HandleLogout();
    }

    /** Home unmounts: the last cleanup runs, so no timer stays scheduled. */
    method Unmount()
      requires Valid()
      modifies this
      ensures Valid() && activeItem == old(activeItem)
      ensures pending == old(pending) - Cleared(old(cleanup)) && pending == multiset{} && cleanup == None
    {
      pending := pending - Cleared(cleanup);
      cleanup := None;
    }

    /** The sidebar selects an item. */
    method SetActiveItem(item: string)
      modifies this
      ensures activeItem == item && pending == old(pending) && cleanup == old(cleanup)
    {
      activeItem := item;
    }

    function Render(user: Json): (v: View)
      reads this
      ensures !Truthy(user) ==> v == Loading("Redirecting or Loading...")
      ensures Truthy(user) ==> v == Main(RenderContent(activeItem))
    {
      if !Truthy(user) then Loading("Redirecting or Loading...") else Main(RenderContent(activeItem))
    }
  }

  /** Re-running the effect leaves at most the last run's timer scheduled: after
      two runs in a row, with no event between them, one timer or none is pending,
      and a pending one is armed for the second run's remaining time. */
  method EffectTwice(page: HomePage, app: App.Browser, now1: int, now2: int)
    requires page.Valid()
    modifies page, app
    ensures page.Valid() && |page.pending| <= 1
    ensures forall t :: t in page.pending ==>
      && App.StoredExpiry(app.storage).Finite?
      && t.delay == App.StoredExpiry(app.storage).n - now2
  {
    page.RunExpiryEffect(app, now1);
    page.RunExpiryEffect(app, now2);
    AtMostOneTimer(page.pending, page.cleanup);
  }
}
