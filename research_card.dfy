/** opinion-hub-frontend/components/ResearchCard.tsx: the card showing one
    survey. What it renders depends only on the survey's status, its access
    mode and four facts about the viewer; the model is that decision. */
module ResearchCard {
  import opened Base
  import ResearchHook

  /** The card's inputs that decide what it shows. */
  datatype CardView = CardView(
    status: ResearchHook.Status,
    isOpenAccess: bool,
    canParticipate: bool,
    hasParticipated: bool,
    isResearcher: bool,
    isAdmin: bool)

  // ---------------------------------------------------------------------
  // The named predicates (lines 67-69)

  predicate CanShowParticipateButton(v: CardView) {
    v.status == ResearchHook.Active && v.canParticipate && !v.hasParticipated
  }

  predicate CanShowCloseButton(v: CardView) {
    v.status == ResearchHook.Active && (v.isResearcher || v.isAdmin)
  }

  predicate CanShowInsights(v: CardView) {
    (v.status == ResearchHook.Closed && (v.isResearcher || v.isAdmin)) || v.hasParticipated
  }

  // ---------------------------------------------------------------------
  // The action area as rendered (lines 205-279)

  datatype Button = Participate | ConnectWallet | Insights | Close | ManageAccess

  /** The buttons in render order, or `None` when the whole area is left out
      because the viewer can neither take part nor manage the survey. */
  function ActionArea(v: CardView): (r: Option<seq<Button>>)
    ensures r.None? <==> !v.canParticipate && !v.hasParticipated && !v.isResearcher && !v.isAdmin
  {
    if !v.canParticipate && !v.hasParticipated && !v.isResearcher && !v.isAdmin then None
    else
      var manager := v.isResearcher || v.isAdmin;
      Some(
        (if v.status == ResearchHook.Active && v.canParticipate && !v.hasParticipated then [Participate] else [])
        + (if v.status == ResearchHook.Active && !v.canParticipate && !v.hasParticipated && v.isOpenAccess then [ConnectWallet] else [])
        + (if (v.status == ResearchHook.Closed && manager) || v.hasParticipated then [Insights] else [])
        + (if manager && v.status == ResearchHook.Active then [Close] else [])
        + (if manager && !v.isOpenAccess then [ManageAccess] else []))
  }

  predicate Shows(v: CardView, b: Button) {
    ActionArea(v).Some? && b in ActionArea(v).value
  }

  /** The conditions written inline in the rendering agree with the card's
      named predicates: each button appears exactly when its predicate holds,
      the hiding of the whole area never suppresses one of them, and Manage
      Access is offered exactly to a manager of a restricted survey. */
  lemma RenderedButtonsMatchPredicates(v: CardView)
    ensures Shows(v, Participate) <==> CanShowParticipateButton(v)
    ensures Shows(v, Close) <==> CanShowCloseButton(v)
    ensures Shows(v, Insights) <==> CanShowInsights(v)
    ensures Shows(v, ManageAccess) <==> (v.isResearcher || v.isAdmin) && !v.isOpenAccess
  {
  }

  /** Because of the area's gating, the disabled "Connect Wallet" button is
      only ever rendered for a researcher or an admin of an open survey: a
      visitor who cannot take part sees no button at all. */
  lemma ConnectWalletOnlyForManagers(v: CardView)
    ensures Shows(v, ConnectWallet) <==>
      v.status == ResearchHook.Active && !v.canParticipate && !v.hasParticipated && v.isOpenAccess
      && (v.isResearcher || v.isAdmin)
  {
  }

  /** An upcoming survey offers no action; its insights only to someone
      who already took part. */
  lemma UpcomingOffersNoAction(v: CardView)
    requires v.status == ResearchHook.Upcoming
    ensures !Shows(v, Participate) && !Shows(v, Close) && !Shows(v, ConnectWallet)
    ensures Shows(v, Insights) <==> v.hasParticipated
  {
  }

  // ---------------------------------------------------------------------
  // Status messages (lines 181-201)

  predicate ShowsAlreadyParticipated(v: CardView) {
    v.hasParticipated && v.status == ResearchHook.Active
  }

  predicate ShowsNotAuthorized(v: CardView) {
    !v.canParticipate && v.status == ResearchHook.Active && !v.hasParticipated
  }

  /** At most one of the two messages appears, and only on an active survey;
      the "not authorized" one appears exactly when an active survey shows
      neither a Participate button nor the "already participated" note. */
  lemma MessagesExclusive(v: CardView)
    ensures !(ShowsAlreadyParticipated(v) && ShowsNotAuthorized(v))
    ensures ShowsAlreadyParticipated(v) || ShowsNotAuthorized(v) ==> v.status == ResearchHook.Active
    ensures v.status == ResearchHook.Active ==>
      (ShowsNotAuthorized(v) <==> !CanShowParticipateButton(v) && !ShowsAlreadyParticipated(v))
  {
  }

  // ---------------------------------------------------------------------
  // getStatusBadge (lines 41-65)

  /** The badge variant: "info" unless the status is one of the three known
      names, which it then copies. */
  function BadgeVariant(status: string): (variant: string)
    ensures variant == status || variant == "info"
  {
    if status == "active" then "active"
    else if status == "closed" then "closed"
    else if status == "upcoming" then "upcoming"
    else "info"
  }

  /** For every status the hook computes, the badge shows that status and
      pulses only when it is active. */
  lemma BadgeShowsStatus(s: ResearchHook.Status)
    ensures BadgeVariant(ResearchHook.StatusName(s)) == ResearchHook.StatusName(s)
    ensures BadgeVariant(ResearchHook.StatusName(s)) != "info"
    ensures (ResearchHook.StatusName(s) == "active") <==> s == ResearchHook.Active
  {
  }
}
