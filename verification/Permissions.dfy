/** Who may do what: the one decision function, its room check, and what each role adds to it. */
module Permissions {
  import opened Text
  import opened AuthTables

  datatype Viewer = Viewer(id: string, roles: set<Role>)

  datatype Action =
    | JourneyCreate | JourneyView | JourneyPause | JourneyResume | JourneyComplete
    | ErcSelect | ErcSuggest | ErcApproveClosure | ErcRevisit | ErcDeactivate | ErcRemove
    | CustomErcCreate | CustomErcSubmitForReview | CustomErcEdit | CustomErcDelete
    | TestTake | TestViewResults
    | ChatView | ChatSend
    | ExperienceLogCreate | ExperienceLogView | ExperienceLogEdit | ExperienceLogDelete
    | BlogCreate | BlogEdit | BlogDelete
    | CommentCreate | CommentDelete | CommentHide | CommentReport
    | FollowCreate | FollowRemove
    | VmInvitationSend | VmInvitationAccept | VmInvitationCancel | VmInvitationDecline
    | VmRelationshipWithdraw
    | WeaknessAttach | ChallengeConfigureThreshold | GlobalVmViewVaGuidance
    | FeedbackCreate | FeedbackRead | FeedbackUpvote | FeedbackManage
    | ContentEdit | ProductDocsView
    | ContentSuggestionCreate | ContentSuggestionReadOwn | ContentSuggestionTriage
    | AdminViewAnyJourney | AdminViewAnyUser | AdminViewAnyTestResult | AdminOverrideJourneyState
    | AdminManageContent | AdminManageUsers | AdminViewPlatformStats | AdminManageTaxonomy
    | AdminManagePothi | AdminManageShlokas | AdminManageResources
    | ModeratorReviewCustomErc | ModeratorManageDisplayContent | CommentModerate

  datatype VmState = PENDING | ACTIVE | ENDED
  datatype ErcStatus = NOT_STARTED | IN_PROGRESS | SUBMITTED | APPROVED | REVISIT
  datatype Visibility = ONLY_ME | FRIENDS | PUBLIC
  datatype Capability = FEEDBACK_WIDGET | CONTENT_EDIT | PRODUCT_DOCS_VIEW | CONTENT_SUGGEST
  datatype FeatureMode = OFF | GRANTED

  datatype VmAssignment = VmAssignment(vmId: string, state: VmState)
  datatype VmRelationship = VmRelationship(vmId: string, vratarthiId: string, state: VmState)
  datatype Journey = Journey(vratarthiId: string, vmAssignments: seq<VmAssignment>, globalVm: Option<VmRelationship>)

  datatype Resource =
    | Platform(grants: Option<set<Capability>>, featureMode: Option<FeatureMode>)
    | OfJourney(journey: Journey)
    | OfErc(ercJourney: Journey, createdById: Option<string>, status: Option<ErcStatus>)
    | OfLog(logJourney: Option<Journey>, logAuthor: string, visibility: Visibility, isDraft: bool, viewerIsFriend: bool)
    | OfBlog(blogAuthor: string)
    | OfComment(commentedBlogAuthor: string, commentAuthor: string)
    | OfAttempt(takenBy: string, attemptJourney: Option<Journey>)
    | OfInvitation(inviterId: string, inviteeId: Option<string>)
    | OfRelationship(vmId: string)
    | Room(roomId: string, relationshipVerified: bool)

  // ─── Predicates the decision rests on ──────────────────────────────────────

  predicate IsVa(user: Viewer) { VRATARTHI in user.roles }
  predicate IsVm(user: Viewer) { VRATMITRA in user.roles }
  predicate IsAdmin(user: Viewer) { ADMIN in user.roles }
  predicate IsAdminOrModerator(user: Viewer) { ADMIN in user.roles || MODERATOR in user.roles }

  predicate IsJourneyOwner(id: string, journey: Journey) {
    journey.vratarthiId == id
  }

  predicate IsActiveJourneyVm(id: string, journey: Journey) {
    exists i :: 0 <= i < |journey.vmAssignments| && journey.vmAssignments[i] == VmAssignment(id, ACTIVE)
  }

  predicate IsGlobalVmForJourney(id: string, journey: Journey) {
    journey.globalVm == Some(VmRelationship(id, journey.vratarthiId, ACTIVE))
  }

  predicate HasActiveJourneyVm(journey: Journey) {
    exists i :: 0 <= i < |journey.vmAssignments| && journey.vmAssignments[i].state == ACTIVE
  }

  predicate IsRoomParticipant(id: string, roomId: string, relationshipVerified: bool) {
    var parts := Split(roomId, ':');
    relationshipVerified && ((|parts| > 1 && parts[1] == id) || (|parts| > 2 && parts[2] == id))
  }

  /** The caller must hold the capability, and the feature must exist in this environment. */
  predicate AllowedByFeature(resource: Resource, capability: Capability) {
    && resource.Platform? && resource.featureMode == Some(GRANTED)
    && resource.grants.Some? && capability in resource.grants.value
  }

  predicate PreSubmission(status: Option<ErcStatus>) {
    status == Some(NOT_STARTED) || status == Some(IN_PROGRESS)
  }

  predicate VaOwns(user: Viewer, journey: Journey) {
    IsVa(user) && IsJourneyOwner(user.id, journey)
  }

  predicate VmAssigned(user: Viewer, journey: Journey) {
    IsVm(user) && IsActiveJourneyVm(user.id, journey)
  }

  predicate VmGlobal(user: Viewer, journey: Journey) {
    IsVm(user) && IsGlobalVmForJourney(user.id, journey)
  }

  predicate GuidesJourneyOf(user: Viewer, journey: Option<Journey>) {
    journey.Some? && (VmAssigned(user, journey.value) || VmGlobal(user, journey.value))
  }

  predicate MayWatch(user: Viewer, journey: Journey) {
    VaOwns(user, journey) || VmAssigned(user, journey) || VmGlobal(user, journey)
  }

  // ─── The decision ──────────────────────────────────────────────────────────

  predicate HasPermission(user: Viewer, resource: Resource, action: Action) {
    CheckLayerOne(user, resource, action) || CheckLayerTwo(user, action)
  }

  /** The rules of the first layer; several actions share one. */
  datatype Rule =
    | Vratarthi | Member | Watch | OwnJourney | RunJourney | GuideGlobally
    | OwnErc | GuideErc | CloseErc | MakeErc | EditErc
    | SeeResults | Chat | CreateLog | ReadLog | OwnLog
    | OwnBlog | DeleteComment | HideComment
    | Invitee | CancelInvitation | Withdraw
    | Feature(capability: Capability) | Triage | NoOne

  function RuleFor(action: Action): Rule {
    match action
    case JourneyCreate | TestTake | VmInvitationSend => Vratarthi
    case BlogCreate | CommentCreate | CommentReport | FollowCreate | FollowRemove => Member
    case JourneyView => Watch
    case JourneyPause | JourneyResume | WeaknessAttach => OwnJourney
    case JourneyComplete | ChallengeConfigureThreshold => RunJourney
    case GlobalVmViewVaGuidance => GuideGlobally
    case ErcSelect | ErcDeactivate | ErcRemove => OwnErc
    case ErcSuggest | ErcRevisit => GuideErc
    case ErcApproveClosure => CloseErc
    case CustomErcCreate | CustomErcSubmitForReview => MakeErc
    case CustomErcEdit | CustomErcDelete => EditErc
    case TestViewResults => SeeResults
    case ChatView | ChatSend => Chat
    case ExperienceLogCreate => CreateLog
    case ExperienceLogView => ReadLog
    case ExperienceLogEdit | ExperienceLogDelete => OwnLog
    case BlogEdit | BlogDelete => OwnBlog
    case CommentDelete => DeleteComment
    case CommentHide => HideComment
    case VmInvitationAccept | VmInvitationDecline => Invitee
    case VmInvitationCancel => CancelInvitation
    case VmRelationshipWithdraw => Withdraw
    case FeedbackCreate | FeedbackRead | FeedbackUpvote => Feature(FEEDBACK_WIDGET)
    case ContentEdit => Feature(CONTENT_EDIT)
    case ProductDocsView => Feature(PRODUCT_DOCS_VIEW)
    case ContentSuggestionCreate | ContentSuggestionReadOwn => Feature(CONTENT_SUGGEST)
    case ContentSuggestionTriage => Triage
    case _ => NoOne
  }

  predicate CheckLayerOne(user: Viewer, resource: Resource, action: Action) {
    Passes(RuleFor(action), user, resource)
  }

  predicate Passes(rule: Rule, user: Viewer, resource: Resource) {
    match rule
    case Vratarthi => IsVa(user)
    case Member => IsVa(user) || IsVm(user)
    case Watch => resource.OfJourney? && MayWatch(user, resource.journey)
    case OwnJourney => resource.OfJourney? && VaOwns(user, resource.journey)
    case RunJourney => resource.OfJourney? && (VaOwns(user, resource.journey) || VmAssigned(user, resource.journey))
    case GuideGlobally => resource.OfJourney? && VmGlobal(user, resource.journey)
    case OwnErc => resource.OfErc? && VaOwns(user, resource.ercJourney)
    case GuideErc => resource.OfErc? && VmAssigned(user, resource.ercJourney)
    case CloseErc =>
      resource.OfErc?
      && ((VaOwns(user, resource.ercJourney) && !HasActiveJourneyVm(resource.ercJourney))
          || VmAssigned(user, resource.ercJourney))
    case MakeErc => resource.OfErc? && (VaOwns(user, resource.ercJourney) || VmAssigned(user, resource.ercJourney))
    case EditErc => resource.OfErc? && resource.createdById == Some(user.id) && PreSubmission(resource.status)
    case SeeResults =>
      resource.OfAttempt? && (resource.takenBy == user.id || GuidesJourneyOf(user, resource.attemptJourney))
    case Chat =>
      if resource.Room? then IsRoomParticipant(user.id, resource.roomId, resource.relationshipVerified)
      else resource.OfJourney? && MayWatch(user, resource.journey)
    case CreateLog =>
      resource.OfLog? && if resource.logJourney.None? then IsVa(user) else VaOwns(user, resource.logJourney.value)
    case ReadLog => resource.OfLog? && MayReadLog(user, resource)
    case OwnLog => resource.OfLog? && resource.logAuthor == user.id
    case OwnBlog => resource.OfBlog? && resource.blogAuthor == user.id
    case DeleteComment =>
      resource.OfComment?
      && (resource.commentAuthor == user.id || resource.commentedBlogAuthor == user.id || IsAdminOrModerator(user))
    case HideComment => resource.OfComment? && (resource.commentedBlogAuthor == user.id || IsAdminOrModerator(user))
    case Invitee => resource.OfInvitation? && resource.inviteeId == Some(user.id)
    case CancelInvitation => resource.OfInvitation? && IsVa(user) && resource.inviterId == user.id
    case Withdraw => resource.OfRelationship? && IsVm(user) && resource.vmId == user.id
    case Feature(capability) => AllowedByFeature(resource, capability)
    case Triage => IsAdmin(user)
    case NoOne => false
  }

  predicate MayReadLog(user: Viewer, resource: Resource)
    requires resource.OfLog?
  {
    if resource.logAuthor == user.id then true
    else if resource.isDraft then false
    else if resource.visibility == PUBLIC then true
    else GuidesJourneyOf(user, resource.logJourney) || (resource.visibility == FRIENDS && resource.viewerIsFriend)
  }

  predicate CheckLayerTwo(user: Viewer, action: Action) {
    match action
    case AdminViewAnyJourney | AdminViewAnyUser | AdminViewAnyTestResult | AdminOverrideJourneyState
      | AdminManageContent | AdminManageUsers | AdminViewPlatformStats | AdminManageTaxonomy
      | AdminManagePothi | AdminManageShlokas | AdminManageResources | FeedbackManage => IsAdmin(user)
    case ModeratorReviewCustomErc | ModeratorManageDisplayContent | CommentModerate => IsAdminOrModerator(user)
    case _ => false
  }

  // ─── What roles add ────────────────────────────────────────────────────────

  /** The actions of the platform's staff, which the first layer leaves to the second. */
  predicate StaffAction(action: Action) {
    match action
    case AdminViewAnyJourney | AdminViewAnyUser | AdminViewAnyTestResult | AdminOverrideJourneyState
      | AdminManageContent | AdminManageUsers | AdminViewPlatformStats | AdminManageTaxonomy
      | AdminManagePothi | AdminManageShlokas | AdminManageResources | FeedbackManage
      | ModeratorReviewCustomErc | ModeratorManageDisplayContent | CommentModerate => true
    case _ => false
  }

  lemma NoRuleForStaff(user: Viewer, resource: Resource, action: Action)
    requires StaffAction(action)
    ensures !CheckLayerOne(user, resource, action)
  {
  }

  lemma StaffRulesForStaff(user: Viewer, action: Action)
    requires !StaffAction(action)
    ensures !CheckLayerTwo(user, action)
  {
  }

  /** The layers share no action. */
  lemma LayersAreApart(user: Viewer, resource: Resource, action: Action)
    ensures HasPermission(user, resource, action) ==
      if StaffAction(action) then CheckLayerTwo(user, action) else CheckLayerOne(user, resource, action)
  {
    if StaffAction(action) { NoRuleForStaff(user, resource, action); } else { StaffRulesForStaff(user, action); }
  }

  lemma StaffAddsUp(id: string, some: set<Role>, more: set<Role>, action: Action)
    ensures CheckLayerTwo(Viewer(id, some + more), action) <==>
      CheckLayerTwo(Viewer(id, some), action) || CheckLayerTwo(Viewer(id, more), action)
  {
  }

  /** Rules that look at a journey through its vratarthi or its vratmitras. */
  predicate OnJourney(rule: Rule) {
    match rule
    case Watch | OwnJourney | RunJourney | GuideGlobally | OwnErc | GuideErc | CloseErc | MakeErc => true
    case SeeResults | Chat | CreateLog | ReadLog => true
    case _ => false
  }

  lemma JourneyRuleAddsUp(rule: Rule, id: string, some: set<Role>, more: set<Role>, resource: Resource)
    requires OnJourney(rule)
    ensures Passes(rule, Viewer(id, some + more), resource) <==>
      Passes(rule, Viewer(id, some), resource) || Passes(rule, Viewer(id, more), resource)
  {
  }

  lemma OtherRuleAddsUp(rule: Rule, id: string, some: set<Role>, more: set<Role>, resource: Resource)
    requires !OnJourney(rule)
    ensures Passes(rule, Viewer(id, some + more), resource) <==>
      Passes(rule, Viewer(id, some), resource) || Passes(rule, Viewer(id, more), resource)
  {
  }

  lemma RuleAddsUp(rule: Rule, id: string, some: set<Role>, more: set<Role>, resource: Resource)
    ensures Passes(rule, Viewer(id, some + more), resource) <==>
      Passes(rule, Viewer(id, some), resource) || Passes(rule, Viewer(id, more), resource)
  {
    if OnJourney(rule) {
      JourneyRuleAddsUp(rule, id, some, more, resource);
    } else {
      OtherRuleAddsUp(rule, id, some, more, resource);
    }
  }

  /** The decision is additive: holding two sets of roles opens what either opens and nothing else. */
  lemma RolesAddUp(id: string, some: set<Role>, more: set<Role>, resource: Resource, action: Action)
    ensures HasPermission(Viewer(id, some + more), resource, action) <==>
      HasPermission(Viewer(id, some), resource, action) || HasPermission(Viewer(id, more), resource, action)
  {
    LayersAreApart(Viewer(id, some + more), resource, action);
    LayersAreApart(Viewer(id, some), resource, action);
    LayersAreApart(Viewer(id, more), resource, action);
    StaffAddsUp(id, some, more, action);
    RuleAddsUp(RuleFor(action), id, some, more, resource);
  }

  /** So no role ever turns an allow into a deny. */
  lemma MoreRolesNeverDeny(user: Viewer, more: set<Role>, resource: Resource, action: Action)
    requires HasPermission(user, resource, action)
    ensures HasPermission(Viewer(user.id, user.roles + more), resource, action)
  {
    RolesAddUp(user.id, user.roles, more, resource, action);
  }

  /** Without a staff role, the first layer decides. */
  lemma MembersByRule(user: Viewer, resource: Resource, action: Action)
    requires user.roles <= {VRATARTHI, VRATMITRA}
    ensures HasPermission(user, resource, action) == Passes(RuleFor(action), user, resource)
  {
  }

  // ─── What each role opens, resource by resource ────────────────────────────

  /** An active vratmitra of the journey. */
  predicate Guides(id: string, journey: Journey) {
    VmAssignment(id, ACTIVE) in journey.vmAssignments
  }

  /** The active vratmitra of everything the journey's owner does. */
  predicate GuidesOwner(id: string, journey: Journey) {
    journey.globalVm == Some(VmRelationship(id, journey.vratarthiId, ACTIVE))
  }

  predicate Unguided(journey: Journey) {
    forall a :: a in journey.vmAssignments ==> a.state != ACTIVE
  }

  /** What is open to somebody with no role at all: by authorship, by invitation, by being named in a chat
      room, by a grant, or because the author shows it. */
  predicate NoRoleOpens(id: string, resource: Resource, action: Action) {
    match resource
    case Platform(grants, featureMode) =>
      && featureMode == Some(GRANTED) && grants.Some?
      && (|| ((action.FeedbackCreate? || action.FeedbackRead? || action.FeedbackUpvote?)
              && FEEDBACK_WIDGET in grants.value)
          || (action.ContentEdit? && CONTENT_EDIT in grants.value)
          || (action.ProductDocsView? && PRODUCT_DOCS_VIEW in grants.value)
          || ((action.ContentSuggestionCreate? || action.ContentSuggestionReadOwn?) && CONTENT_SUGGEST in grants.value))
    case OfErc(_, createdById, status) =>
      && (action.CustomErcEdit? || action.CustomErcDelete?) && createdById == Some(id)
      && (status == Some(NOT_STARTED) || status == Some(IN_PROGRESS))
    case OfLog(_, author, visibility, isDraft, viewerIsFriend) =>
      || (author == id && (action.ExperienceLogView? || action.ExperienceLogEdit? || action.ExperienceLogDelete?))
      || (action.ExperienceLogView? && !isDraft
          && (visibility == PUBLIC || (visibility == FRIENDS && viewerIsFriend)))
    case OfBlog(author) => author == id && (action.BlogEdit? || action.BlogDelete?)
    case OfComment(blogAuthor, commentAuthor) =>
      || (blogAuthor == id && (action.CommentDelete? || action.CommentHide?)) || (commentAuthor == id
                                                                                  && action.CommentDelete?)
    case OfAttempt(takenBy, _) => takenBy == id && action.TestViewResults?
    case OfInvitation(_, inviteeId) => inviteeId == Some(id) && (action.VmInvitationAccept?
                                                                 || action.VmInvitationDecline?)
    case Room(roomId, relationshipVerified) =>
      var parts := Split(roomId, ':');
      && (action.ChatView? || action.ChatSend?) && relationshipVerified
      && ((|parts| > 1 && parts[1] == id) || (|parts| > 2 && parts[2] == id))
    case OfJourney(_) => false
    case OfRelationship(_) => false
  }

  predicate ToAnyMember(action: Action) {
    (action.BlogCreate? || action.CommentCreate? || action.CommentReport? || action.FollowCreate?
     || action.FollowRemove?)
  }

  /** What VRATARTHI opens: a few things anywhere, and the rest on what its holder owns. Closing an ERC takes
      that nobody guides the journey. */
  predicate VaOpens(id: string, resource: Resource, action: Action) {
    || ToAnyMember(action) || (action.JourneyCreate? || action.TestTake? || action.VmInvitationSend?)
    || match resource
       case OfJourney(journey) =>
         && journey.vratarthiId == id
         && (action.JourneyView? || action.JourneyPause? || action.JourneyResume? || action.JourneyComplete?
             || action.WeaknessAttach? || action.ChallengeConfigureThreshold? || action.ChatView? || action.ChatSend?)
       case OfErc(journey, _, _) =>
         && journey.vratarthiId == id
         && (|| (action.ErcSelect? || action.ErcDeactivate? || action.ErcRemove? || action.CustomErcCreate?
                 || action.CustomErcSubmitForReview?)
             || (action.ErcApproveClosure? && Unguided(journey)))
       case OfLog(journey, _, _, _, _) =>
         action.ExperienceLogCreate? && (journey.Some? ==> journey.value.vratarthiId == id)
       case OfInvitation(inviterId, _) => inviterId == id && action.VmInvitationCancel?
       case _ => false
  }

  /** What VRATMITRA opens: a few things anywhere, and the rest on what names its holder. */
  predicate VmOpens(id: string, resource: Resource, action: Action) {
    ToAnyMember(action) || VmOpensHere(id, resource, action)
  }

  predicate VmOpensHere(id: string, resource: Resource, action: Action) {
    match resource
    case OfJourney(journey) =>
      || (Guides(id, journey)
          && (action.JourneyView? || action.JourneyComplete? || action.ChallengeConfigureThreshold?
              || action.ChatView? || action.ChatSend?))
      || (GuidesOwner(id, journey) && (action.JourneyView? || action.GlobalVmViewVaGuidance? || action.ChatView?
                                       || action.ChatSend?))
    case OfErc(journey, _, _) =>
      && Guides(id, journey)
      && (action.ErcSuggest? || action.ErcApproveClosure? || action.ErcRevisit? || action.CustomErcCreate?
          || action.CustomErcSubmitForReview?)
    case OfLog(journey, _, _, isDraft, _) =>
      && action.ExperienceLogView? && !isDraft
      && journey.Some? && (Guides(id, journey.value) || GuidesOwner(id, journey.value))
    case OfAttempt(_, journey) =>
      && action.TestViewResults?
      && journey.Some? && (Guides(id, journey.value) || GuidesOwner(id, journey.value))
    case OfRelationship(vmId) => vmId == id && action.VmRelationshipWithdraw?
    case _ => false
  }

  predicate ModeratorOpens(resource: Resource, action: Action) {
    || (action.ModeratorReviewCustomErc? || action.ModeratorManageDisplayContent? || action.CommentModerate?)
    || (resource.OfComment? && (action.CommentDelete? || action.CommentHide?))
  }

  predicate AdminOpens(resource: Resource, action: Action) {
    || ModeratorOpens(resource, action)
    || (action.AdminViewAnyJourney? || action.AdminViewAnyUser? || action.AdminViewAnyTestResult?
        || action.AdminOverrideJourneyState? || action.AdminManageContent? || action.AdminManageUsers?
        || action.AdminViewPlatformStats? || action.AdminManageTaxonomy? || action.AdminManagePothi?
        || action.AdminManageShlokas? || action.AdminManageResources? || action.FeedbackManage?
        || action.ContentSuggestionTriage?)
  }

  predicate StaffOpens(role: Role, resource: Resource, action: Action) {
    if role == ADMIN then AdminOpens(resource, action) else ModeratorOpens(resource, action)
  }

  // ─── The tables are the decision ───────────────────────────────────────────

  lemma AssignedIsGuides(id: string, journey: Journey)
    ensures IsActiveJourneyVm(id, journey) == Guides(id, journey)
    ensures IsGlobalVmForJourney(id, journey) == GuidesOwner(id, journey)
    ensures HasActiveJourneyVm(journey) == !Unguided(journey)
  {
  }

  /** The journey a resource is about. */
  function JourneyOf(resource: Resource): Option<Journey> {
    match resource
    case OfJourney(journey) => Some(journey)
    case OfErc(journey, _, _) => Some(journey)
    case OfLog(journey, _, _, _, _) => journey
    case OfAttempt(_, journey) => journey
    case _ => None
  }

  /** The same tables by rule. */
  predicate VaFavours(rule: Rule, id: string, resource: Resource) {
    || rule.Vratarthi? || rule.Member?
    || match resource
       case OfJourney(journey) =>
         journey.vratarthiId == id && (rule.Watch? || rule.OwnJourney? || rule.RunJourney? || rule.Chat?)
       case OfErc(journey, _, _) =>
         && journey.vratarthiId == id
         && (rule.OwnErc? || rule.MakeErc? || (rule.CloseErc? && Unguided(journey)))
       case OfLog(journey, _, _, _, _) => rule.CreateLog? && (journey.Some? ==> journey.value.vratarthiId == id)
       case OfInvitation(inviterId, _) => inviterId == id && rule.CancelInvitation?
       case _ => false
  }

  predicate VmFavours(rule: Rule, id: string, resource: Resource) {
    || rule.Member?
    || match resource
       case OfJourney(journey) =>
         || (Guides(id, journey) && (rule.Watch? || rule.RunJourney? || rule.Chat?))
         || (GuidesOwner(id, journey) && (rule.Watch? || rule.GuideGlobally? || rule.Chat?))
       case OfErc(journey, _, _) => Guides(id, journey) && (rule.GuideErc? || rule.CloseErc? || rule.MakeErc?)
       case OfLog(journey, _, _, isDraft, _) =>
         && rule.ReadLog? && !isDraft
         && journey.Some? && (Guides(id, journey.value) || GuidesOwner(id, journey.value))
       case OfAttempt(_, journey) =>
         && rule.SeeResults?
         && journey.Some? && (Guides(id, journey.value) || GuidesOwner(id, journey.value))
       case OfRelationship(vmId) => vmId == id && rule.Withdraw?
       case _ => false
  }

  lemma VaOnJourneyRule(rule: Rule, id: string, resource: Resource)
    requires JourneyOf(resource).Some?
    ensures Passes(rule, Viewer(id, {VRATARTHI}), resource) <==>
      Passes(rule, Viewer(id, {}), resource) || VaFavours(rule, id, resource)
  {
    AssignedIsGuides(id, JourneyOf(resource).value);
  }

  lemma VaOnRule(rule: Rule, id: string, resource: Resource)
    ensures Passes(rule, Viewer(id, {VRATARTHI}), resource) <==>
      Passes(rule, Viewer(id, {}), resource) || VaFavours(rule, id, resource)
  {
    if JourneyOf(resource).Some? { VaOnJourneyRule(rule, id, resource); }
  }

  lemma VmOnJourneyRule(rule: Rule, id: string, resource: Resource)
    requires JourneyOf(resource).Some?
    ensures Passes(rule, Viewer(id, {VRATMITRA}), resource) <==>
      Passes(rule, Viewer(id, {}), resource) || VmFavours(rule, id, resource)
  {
    AssignedIsGuides(id, JourneyOf(resource).value);
  }

  lemma VmOnRule(rule: Rule, id: string, resource: Resource)
    ensures Passes(rule, Viewer(id, {VRATMITRA}), resource) <==>
      Passes(rule, Viewer(id, {}), resource) || VmFavours(rule, id, resource)
  {
    if JourneyOf(resource).Some? { VmOnJourneyRule(rule, id, resource); }
  }

  lemma NoRoleOnPlatform(id: string, resource: Resource, action: Action)
    requires resource.Platform?
    ensures Passes(RuleFor(action), Viewer(id, {}), resource) == NoRoleOpens(id, resource, action)
  {
  }

  lemma NoRoleOnErcRule(rule: Rule, id: string, resource: Resource)
    requires resource.OfErc?
    ensures Passes(rule, Viewer(id, {}), resource) <==>
      rule.EditErc? && resource.createdById == Some(id) && PreSubmission(resource.status)
  {
  }

  predicate IsEdit(action: Action) {
    action.CustomErcEdit? || action.CustomErcDelete?
  }

  lemma EditRuleIs(action: Action)
    ensures RuleFor(action).EditErc? == IsEdit(action)
  {
  }

  lemma NoRoleOnErc(id: string, resource: Resource, action: Action)
    requires resource.OfErc?
    ensures Passes(RuleFor(action), Viewer(id, {}), resource) == NoRoleOpens(id, resource, action)
  {
    NoRoleOnErcRule(RuleFor(action), id, resource);
    EditRuleIs(action);
  }

  lemma NoRoleOnLog(id: string, resource: Resource, action: Action)
    requires resource.OfLog?
    ensures Passes(RuleFor(action), Viewer(id, {}), resource) == NoRoleOpens(id, resource, action)
  {
  }

  lemma NoRoleOnPosts(id: string, resource: Resource, action: Action)
    requires resource.OfBlog? || resource.OfComment?
    ensures Passes(RuleFor(action), Viewer(id, {}), resource) == NoRoleOpens(id, resource, action)
  {
  }

  lemma NoRoleOnPeople(id: string, resource: Resource, action: Action)
    requires resource.OfAttempt? || resource.OfInvitation? || resource.OfRelationship?
    ensures Passes(RuleFor(action), Viewer(id, {}), resource) == NoRoleOpens(id, resource, action)
  {
  }

  lemma NoRoleOnPlaces(id: string, resource: Resource, action: Action)
    requires resource.OfJourney? || resource.Room?
    ensures Passes(RuleFor(action), Viewer(id, {}), resource) == NoRoleOpens(id, resource, action)
  {
  }

  lemma AnywhereRules(action: Action)
    ensures RuleFor(action).Member? == ToAnyMember(action)
    ensures RuleFor(action).Vratarthi? <==> action.JourneyCreate? || action.TestTake? || action.VmInvitationSend?
  {
  }

  lemma VaJourneyRules(action: Action)
    ensures var rule := RuleFor(action);
      rule.Watch? || rule.OwnJourney? || rule.RunJourney? || rule.Chat? <==>
        || action.JourneyView? || action.JourneyPause? || action.JourneyResume? || action.JourneyComplete?
        || action.WeaknessAttach? || action.ChallengeConfigureThreshold? || action.ChatView? || action.ChatSend?
  {
  }

  lemma VaOnJourney(id: string, resource: Resource, action: Action)
    requires resource.OfJourney?
    ensures VaFavours(RuleFor(action), id, resource) == VaOpens(id, resource, action)
  {
    AnywhereRules(action);
    VaJourneyRules(action);
  }

  lemma VaErcRules(action: Action)
    ensures var rule := RuleFor(action);
      && (rule.OwnErc? || rule.MakeErc? <==>
            || action.ErcSelect? || action.ErcDeactivate? || action.ErcRemove?
            || action.CustomErcCreate? || action.CustomErcSubmitForReview?)
      && (rule.CloseErc? <==> action.ErcApproveClosure?)
  {
  }

  lemma VaOnErc(id: string, resource: Resource, action: Action)
    requires resource.OfErc?
    ensures VaFavours(RuleFor(action), id, resource) == VaOpens(id, resource, action)
  {
    AnywhereRules(action);
    VaErcRules(action);
  }

  lemma VaOnLog(id: string, resource: Resource, action: Action)
    requires resource.OfLog?
    ensures VaFavours(RuleFor(action), id, resource) == VaOpens(id, resource, action)
  {
  }

  lemma VaOnInvitation(id: string, resource: Resource, action: Action)
    requires resource.OfInvitation?
    ensures VaFavours(RuleFor(action), id, resource) == VaOpens(id, resource, action)
  {
  }

  lemma VaElsewhere(id: string, resource: Resource, action: Action)
    requires !resource.OfJourney? && !resource.OfErc? && !resource.OfLog? && !resource.OfInvitation?
    ensures VaFavours(RuleFor(action), id, resource) == VaOpens(id, resource, action)
  {
  }

  lemma VmJourneyRules(action: Action)
    ensures var rule := RuleFor(action);
      && (rule.RunJourney? <==> action.JourneyComplete? || action.ChallengeConfigureThreshold?)
      && (rule.Watch? || rule.Chat? <==> action.JourneyView? || action.ChatView? || action.ChatSend?)
      && (rule.GuideGlobally? <==> action.GlobalVmViewVaGuidance?)
  {
  }

  lemma VmOnJourney(id: string, resource: Resource, action: Action)
    requires resource.OfJourney?
    ensures VmFavours(RuleFor(action), id, resource) == VmOpens(id, resource, action)
  {
    AnywhereRules(action);
    VmJourneyRules(action);
  }

  lemma VmErcRules(action: Action)
    ensures var rule := RuleFor(action);
      rule.GuideErc? || rule.CloseErc? || rule.MakeErc? <==>
        || action.ErcSuggest? || action.ErcApproveClosure? || action.ErcRevisit? || action.CustomErcCreate?
        || action.CustomErcSubmitForReview?
  {
  }

  lemma VmOnErc(id: string, resource: Resource, action: Action)
    requires resource.OfErc?
    ensures VmFavours(RuleFor(action), id, resource) == VmOpens(id, resource, action)
  {
    AnywhereRules(action);
    VmErcRules(action);
  }

  lemma VmOnLog(id: string, resource: Resource, action: Action)
    requires resource.OfLog?
    ensures VmFavours(RuleFor(action), id, resource) == VmOpens(id, resource, action)
  {
  }

  lemma VmOnAttempt(id: string, resource: Resource, action: Action)
    requires resource.OfAttempt?
    ensures VmFavours(RuleFor(action), id, resource) == VmOpens(id, resource, action)
  {
  }

  lemma VmOnRelationship(id: string, resource: Resource, action: Action)
    requires resource.OfRelationship?
    ensures VmFavours(RuleFor(action), id, resource) == VmOpens(id, resource, action)
  {
  }

  lemma VmElsewhere(id: string, resource: Resource, action: Action)
    requires !resource.OfJourney? && !resource.OfErc? && !resource.OfLog? && !resource.OfAttempt?
      && !resource.OfRelationship?
    ensures VmFavours(RuleFor(action), id, resource) == VmOpens(id, resource, action)
  {
  }

  /** Without a role, exactly that table is open. */
  lemma NoRoleOpensExactly(id: string, resource: Resource, action: Action)
    ensures HasPermission(Viewer(id, {}), resource, action) == NoRoleOpens(id, resource, action)
  {
    MembersByRule(Viewer(id, {}), resource, action);
    match resource
    case Platform(_, _) => NoRoleOnPlatform(id, resource, action);
    case OfErc(_, _, _) => NoRoleOnErc(id, resource, action);
    case OfLog(_, _, _, _, _) => NoRoleOnLog(id, resource, action);
    case OfBlog(_) => NoRoleOnPosts(id, resource, action);
    case OfComment(_, _) => NoRoleOnPosts(id, resource, action);
    case OfAttempt(_, _) => NoRoleOnPeople(id, resource, action);
    case OfInvitation(_, _) => NoRoleOnPeople(id, resource, action);
    case OfRelationship(_) => NoRoleOnPeople(id, resource, action);
    case OfJourney(_) => NoRoleOnPlaces(id, resource, action);
    case Room(_, _) => NoRoleOnPlaces(id, resource, action);
  }

  lemma VaTable(id: string, resource: Resource, action: Action)
    ensures VaFavours(RuleFor(action), id, resource) == VaOpens(id, resource, action)
  {
    match resource
    case OfJourney(_) => VaOnJourney(id, resource, action);
    case OfErc(_, _, _) => VaOnErc(id, resource, action);
    case OfLog(_, _, _, _, _) => VaOnLog(id, resource, action);
    case OfInvitation(_, _) => VaOnInvitation(id, resource, action);
    case _ => VaElsewhere(id, resource, action);
  }

  lemma VmTable(id: string, resource: Resource, action: Action)
    ensures VmFavours(RuleFor(action), id, resource) == VmOpens(id, resource, action)
  {
    match resource
    case OfJourney(_) => VmOnJourney(id, resource, action);
    case OfErc(_, _, _) => VmOnErc(id, resource, action);
    case OfLog(_, _, _, _, _) => VmOnLog(id, resource, action);
    case OfAttempt(_, _) => VmOnAttempt(id, resource, action);
    case OfRelationship(_) => VmOnRelationship(id, resource, action);
    case _ => VmElsewhere(id, resource, action);
  }

  lemma VaAlone(id: string, resource: Resource, action: Action)
    ensures HasPermission(Viewer(id, {VRATARTHI}), resource, action) <==>
      HasPermission(Viewer(id, {}), resource, action) || VaOpens(id, resource, action)
  {
    MembersByRule(Viewer(id, {VRATARTHI}), resource, action);
    MembersByRule(Viewer(id, {}), resource, action);
    VaOnRule(RuleFor(action), id, resource);
    VaTable(id, resource, action);
  }

  lemma VmAlone(id: string, resource: Resource, action: Action)
    ensures HasPermission(Viewer(id, {VRATMITRA}), resource, action) <==>
      HasPermission(Viewer(id, {}), resource, action) || VmOpens(id, resource, action)
  {
    MembersByRule(Viewer(id, {VRATMITRA}), resource, action);
    MembersByRule(Viewer(id, {}), resource, action);
    VmOnRule(RuleFor(action), id, resource);
    VmTable(id, resource, action);
  }

  predicate ModeratorAction(action: Action) {
    action.ModeratorReviewCustomErc? || action.ModeratorManageDisplayContent? || action.CommentModerate?
  }

  lemma StaffOnAction(id: string, action: Action, role: Role)
    requires role in {ADMIN, MODERATOR}
    ensures CheckLayerTwo(Viewer(id, {role}), action) <==>
      if role == ADMIN then StaffAction(action) else ModeratorAction(action)
    ensures !CheckLayerTwo(Viewer(id, {}), action)
  {
  }

  lemma StaffOnRule(rule: Rule, id: string, resource: Resource, role: Role)
    requires role in {ADMIN, MODERATOR}
    ensures Passes(rule, Viewer(id, {role}), resource) <==>
      || Passes(rule, Viewer(id, {}), resource) || (resource.OfComment? && (rule.DeleteComment? || rule.HideComment?))
      || (role == ADMIN && rule == Triage)
  {
  }

  lemma RulesOfStaff(action: Action)
    ensures RuleFor(action).DeleteComment? || RuleFor(action).HideComment? <==>
      action.CommentDelete? || action.CommentHide?
    ensures RuleFor(action).Triage? == action.ContentSuggestionTriage?
  {
  }

  lemma StaffByRule(id: string, resource: Resource, action: Action, role: Role)
    requires role in {ADMIN, MODERATOR}
    ensures CheckLayerOne(Viewer(id, {role}), resource, action) <==>
      || CheckLayerOne(Viewer(id, {}), resource, action)
      || (resource.OfComment? && (action.CommentDelete? || action.CommentHide?))
      || (role == ADMIN && action.ContentSuggestionTriage?)
  {
    StaffOnRule(RuleFor(action), id, resource, role);
    RulesOfStaff(action);
  }

  lemma StaffTable(id: string, resource: Resource, action: Action, role: Role)
    requires role in {ADMIN, MODERATOR}
    ensures StaffOpens(role, resource, action) <==>
      || (resource.OfComment? && (action.CommentDelete? || action.CommentHide?))
      || (if role == ADMIN then StaffAction(action) || action.ContentSuggestionTriage? else ModeratorAction(action))
  {
  }

  lemma StaffAloneOnStaff(id: string, resource: Resource, action: Action, role: Role)
    requires role in {ADMIN, MODERATOR} && StaffAction(action)
    ensures HasPermission(Viewer(id, {role}), resource, action) <==>
      HasPermission(Viewer(id, {}), resource, action) || StaffOpens(role, resource, action)
  {
    LayersAreApart(Viewer(id, {role}), resource, action);
    LayersAreApart(Viewer(id, {}), resource, action);
    StaffOnAction(id, action, role);
    StaffTable(id, resource, action, role);
  }

  lemma StaffAloneOnRules(id: string, resource: Resource, action: Action, role: Role)
    requires role in {ADMIN, MODERATOR} && !StaffAction(action)
    ensures HasPermission(Viewer(id, {role}), resource, action) <==>
      HasPermission(Viewer(id, {}), resource, action) || StaffOpens(role, resource, action)
  {
    LayersAreApart(Viewer(id, {role}), resource, action);
    LayersAreApart(Viewer(id, {}), resource, action);
    StaffByRule(id, resource, action, role);
    StaffTable(id, resource, action, role);
  }

  lemma StaffAlone(id: string, resource: Resource, action: Action, role: Role)
    requires role in {ADMIN, MODERATOR}
    ensures HasPermission(Viewer(id, {role}), resource, action) <==>
      HasPermission(Viewer(id, {}), resource, action) || StaffOpens(role, resource, action)
  {
    if StaffAction(action) {
      StaffAloneOnStaff(id, resource, action, role);
    } else {
      StaffAloneOnRules(id, resource, action, role);
    }
  }

  /** What changes when a role is added to a decision made on the roles apart. */
  lemma Added(user: Viewer, role: Role, resource: Resource, action: Action, opens: bool)
    requires HasPermission(Viewer(user.id, {role}), resource, action) <==>
      HasPermission(Viewer(user.id, {}), resource, action) || opens
    ensures HasPermission(Viewer(user.id, user.roles + {role}), resource, action) <==>
      HasPermission(user, resource, action) || opens
  {
    RolesAddUp(user.id, user.roles, {role}, resource, action);
    RolesAddUp(user.id, user.roles, {}, resource, action);
    assert user.roles + {} == user.roles;
  }

  /** Giving VRATARTHI to anybody opens exactly its table, whatever other roles they hold. */
  lemma VratarthiOpensExactly(user: Viewer, resource: Resource, action: Action)
    ensures HasPermission(Viewer(user.id, user.roles + {VRATARTHI}), resource, action) <==>
      HasPermission(user, resource, action) || VaOpens(user.id, resource, action)
  {
    VaAlone(user.id, resource, action);
    Added(user, VRATARTHI, resource, action, VaOpens(user.id, resource, action));
  }

  /** So does giving VRATMITRA. */
  lemma VratmitraOpensExactly(user: Viewer, resource: Resource, action: Action)
    ensures HasPermission(Viewer(user.id, user.roles + {VRATMITRA}), resource, action) <==>
      HasPermission(user, resource, action) || VmOpens(user.id, resource, action)
  {
    VmAlone(user.id, resource, action);
    Added(user, VRATMITRA, resource, action, VmOpens(user.id, resource, action));
  }

  /** And giving ADMIN or MODERATOR: nobody's journeys, tests, chats or drafts are among what they open. */
  lemma StaffOpensExactly(user: Viewer, resource: Resource, action: Action, role: Role)
    requires role in {ADMIN, MODERATOR}
    ensures HasPermission(Viewer(user.id, user.roles + {role}), resource, action) <==>
      || HasPermission(user, resource, action)
      || StaffOpens(role, resource, action)
  {
    StaffAlone(user.id, resource, action, role);
    Added(user, role, resource, action, StaffOpens(role, resource, action));
  }

  /** `decides` is the decision on one resource and action for one user, by the roles held. */
  ghost predicate Decides(decides: set<Role> -> bool, id: string, resource: Resource, action: Action) {
    forall roles :: decides(roles) == HasPermission(Viewer(id, roles), resource, action)
  }

  ghost predicate Adds(decides: set<Role> -> bool, role: Role, opens: bool) {
    forall roles :: decides(roles + {role}) <==> decides(roles) || opens
  }

  lemma VratarthiAdds(decides: set<Role> -> bool, id: string, resource: Resource, action: Action)
    requires Decides(decides, id, resource, action)
    ensures Adds(decides, VRATARTHI, VaOpens(id, resource, action))
  {
    forall roles
      ensures decides(roles + {VRATARTHI}) <==> decides(roles) || VaOpens(id, resource, action)
    {
      VratarthiOpensExactly(Viewer(id, roles), resource, action);
    }
  }

  lemma VratmitraAdds(decides: set<Role> -> bool, id: string, resource: Resource, action: Action)
    requires Decides(decides, id, resource, action)
    ensures Adds(decides, VRATMITRA, VmOpens(id, resource, action))
  {
    forall roles
      ensures decides(roles + {VRATMITRA}) <==> decides(roles) || VmOpens(id, resource, action)
    {
      VratmitraOpensExactly(Viewer(id, roles), resource, action);
    }
  }

  lemma StaffAdds(decides: set<Role> -> bool, id: string, resource: Resource, action: Action, role: Role)
    requires Decides(decides, id, resource, action) && role in {ADMIN, MODERATOR}
    ensures Adds(decides, role, StaffOpens(role, resource, action))
  {
    forall roles
      ensures decides(roles + {role}) <==> decides(roles) || StaffOpens(role, resource, action)
    {
      StaffOpensExactly(Viewer(id, roles), resource, action, role);
    }
  }

  lemma RoleTaken(decides: set<Role> -> bool, role: Role, opens: bool, roles: set<Role>)
    requires Adds(decides, role, opens)
    ensures decides(roles) <==> decides(roles - {role}) || (role in roles && opens)
  {
    assert roles == if role in roles then (roles - {role}) + {role} else roles - {role};
    assert decides((roles - {role}) + {role}) <==> decides(roles - {role}) || opens;
  }

  lemma AllRolesTaken(
    decides: set<Role> -> bool, roles: set<Role>, vratarthi: bool, vratmitra: bool, moderator: bool, admin: bool)
    requires Adds(decides, VRATARTHI, vratarthi) && Adds(decides, VRATMITRA, vratmitra)
    requires Adds(decides, MODERATOR, moderator) && Adds(decides, ADMIN, admin)
    ensures decides(roles) <==>
      || decides({}) || (VRATARTHI in roles && vratarthi) || (VRATMITRA in roles && vratmitra)
      || (MODERATOR in roles && moderator) || (ADMIN in roles && admin)
  {
    RoleTaken(decides, VRATARTHI, vratarthi, roles);
    RoleTaken(decides, VRATMITRA, vratmitra, roles - {VRATARTHI});
    RoleTaken(decides, MODERATOR, moderator, roles - {VRATARTHI} - {VRATMITRA});
    RoleTaken(decides, ADMIN, admin, roles - {VRATARTHI} - {VRATMITRA} - {MODERATOR});
    forall role | role in roles - {VRATARTHI} - {VRATMITRA} - {MODERATOR} - {ADMIN}
      ensures false
    {
      match role
      case VRATARTHI =>
      case VRATMITRA =>
      case MODERATOR =>
      case ADMIN =>
    }
    assert roles - {VRATARTHI} - {VRATMITRA} - {MODERATOR} - {ADMIN} == {};
  }

  lemma DecidedByTables(decides: set<Role> -> bool, id: string, roles: set<Role>, resource: Resource, action: Action)
    requires Decides(decides, id, resource, action)
    ensures HasPermission(Viewer(id, roles), resource, action) <==>
      || HasPermission(Viewer(id, {}), resource, action)
      || (VRATARTHI in roles && VaOpens(id, resource, action)) || (VRATMITRA in roles && VmOpens(id, resource, action))
      || (MODERATOR in roles && StaffOpens(MODERATOR, resource, action))
      || (ADMIN in roles && StaffOpens(ADMIN, resource, action))
  {
    VratarthiAdds(decides, id, resource, action);
    VratmitraAdds(decides, id, resource, action);
    StaffAdds(decides, id, resource, action, MODERATOR);
    StaffAdds(decides, id, resource, action, ADMIN);
    AllRolesTaken(decides, roles, VaOpens(id, resource, action), VmOpens(id, resource, action),
                  StaffOpens(MODERATOR, resource, action), StaffOpens(ADMIN, resource, action));
  }

  /** The whole decision, for every user, resource and action: what is open to somebody with no role, and
      what each role held opens, and nothing else. */
  lemma TheDecision(user: Viewer, resource: Resource, action: Action)
    ensures HasPermission(user, resource, action) <==>
      || NoRoleOpens(user.id, resource, action)
      || (VRATARTHI in user.roles && VaOpens(user.id, resource, action))
      || (VRATMITRA in user.roles && VmOpens(user.id, resource, action))
      || (MODERATOR in user.roles && StaffOpens(MODERATOR, resource, action))
      || (ADMIN in user.roles && StaffOpens(ADMIN, resource, action))
  {
    var decides := roles => HasPermission(Viewer(user.id, roles), resource, action);
    DecidedByTables(decides, user.id, user.roles, resource, action);
    NoRoleOpensExactly(user.id, resource, action);
  }

  // ─── What follows from the tables ──────────────────────────────────────────

  /** Somebody who signed up and then gets VRATMITRA gets nothing on a resource that names them nowhere as
      a vratmitra. */
  lemma TheRoleAloneOpensNothing(user: Viewer, resource: Resource, action: Action)
    requires IsVa(user) && !VmOpensHere(user.id, resource, action)
    ensures HasPermission(Viewer(user.id, user.roles + {VRATMITRA}), resource, action)
      == HasPermission(user, resource, action)
  {
    VratmitraOpensExactly(user, resource, action);
    VratarthiOpensExactly(user, resource, action);
    assert user.roles + {VRATARTHI} == user.roles;
  }

  predicate Gated(action: Action) {
    || action.FeedbackCreate? || action.FeedbackRead? || action.FeedbackUpvote? || action.ContentEdit?
    || action.ProductDocsView? || action.ContentSuggestionCreate? || action.ContentSuggestionReadOwn?
  }

  lemma NoRoleOpensGates(id: string, resource: Resource, action: Action)
    requires Gated(action)
    ensures !VaOpens(id, resource, action) && !VmOpens(id, resource, action)
    ensures !ModeratorOpens(resource, action) && !AdminOpens(resource, action)
  {
  }

  /** No role, and no identity, opens a gated feature: that takes the grant, and the environment. */
  lemma GatesIgnoreWhoAsks(user: Viewer, other: Viewer, resource: Resource, action: Action)
    requires Gated(action)
    ensures HasPermission(user, resource, action) == HasPermission(other, resource, action)
    ensures HasPermission(user, resource, action) ==>
      && resource.Platform? && resource.featureMode == Some(GRANTED)
      && resource.grants.Some? && resource.grants.value != {}
  {
    TheDecision(user, resource, action);
    TheDecision(other, resource, action);
    NoRoleOpensGates(user.id, resource, action);
    NoRoleOpensGates(other.id, resource, action);
  }

  /** The guard of the administrators' service. */
  lemma AdminsAloneManageUsers(user: Viewer, resource: Resource)
    ensures HasPermission(user, resource, AdminManageUsers) <==> ADMIN in user.roles
  {
    TheDecision(user, resource, AdminManageUsers);
  }

  /** The resource is this user's own, or names them, or was sent to them. */
  predicate HasStake(id: string, resource: Resource) {
    match resource
    case OfJourney(journey) => HasPart(id, journey)
    case OfErc(journey, createdById, _) => HasPart(id, journey) || createdById == Some(id)
    case OfLog(journey, author, _, _, _) => author == id || (journey.Some? && HasPart(id, journey.value))
    case OfBlog(author) => author == id
    case OfComment(blogAuthor, commentAuthor) => blogAuthor == id || commentAuthor == id
    case OfAttempt(takenBy, journey) => takenBy == id || (journey.Some? && HasPart(id, journey.value))
    case OfInvitation(inviterId, inviteeId) => inviterId == id || inviteeId == Some(id)
    case OfRelationship(vmId) => vmId == id
    case Room(roomId, _) => id in Split(roomId, ':')
    case Platform(_, _) => false
  }

  predicate HasPart(id: string, journey: Journey) {
    journey.vratarthiId == id || Guides(id, journey) || GuidesOwner(id, journey)
  }

  /** What is open to any member at all. */
  predicate OpenToMembers(resource: Resource, action: Action) {
    || ToAnyMember(action) || action.JourneyCreate? || action.TestTake? || action.VmInvitationSend? || Gated(action)
    || (action.ExperienceLogCreate? && resource.OfLog? && resource.logJourney.None?)
    || (action.ExperienceLogView? && resource.OfLog? && !resource.isDraft
        && (resource.visibility == PUBLIC || (resource.visibility == FRIENDS && resource.viewerIsFriend)))
  }

  lemma StrangerOnTables(id: string, resource: Resource, action: Action)
    requires !HasStake(id, resource)
    ensures NoRoleOpens(id, resource, action) || VaOpens(id, resource, action) || VmOpens(id, resource, action) ==>
      OpenToMembers(resource, action)
  {
  }

  /** A member who is no staff gets nothing on a resource they have no stake in, beyond what is open to any
      member. */
  lemma StrangersGetNothing(user: Viewer, resource: Resource, action: Action)
    requires user.roles <= {VRATARTHI, VRATMITRA} && !HasStake(user.id, resource)
    ensures HasPermission(user, resource, action) ==> OpenToMembers(resource, action)
  {
    TheDecision(user, resource, action);
    StrangerOnTables(user.id, resource, action);
  }

  /** A vratarthi closes an ERC of theirs exactly while nobody guides the journey, unless they guide it
      themselves as a vratmitra. */
  lemma ClosingAlone(user: Viewer, resource: Resource)
    requires resource.OfErc?
    ensures var journey := resource.ercJourney;
      HasPermission(user, resource, ErcApproveClosure) <==>
        || (VRATARTHI in user.roles && journey.vratarthiId == user.id
            && forall a :: a in journey.vmAssignments ==> a.state != ACTIVE)
        || (VRATMITRA in user.roles && VmAssignment(user.id, ACTIVE) in journey.vmAssignments)
  {
    TheDecision(user, resource, ErcApproveClosure);
  }
}
