/** Notification kinds, the feature each belongs to, and the immutable part of a row. */
module Notifications {
  import opened Options

  type Id = int
  type UserId = int
  type EventId = string

  datatype Kind =
    | SubscriptionGoing | SubscriptionSuggested | SubscriptionReview | SubscriptionMemories
    | SubscriptionMilestone | NewFollower | NewFriend | FollowRequest | FollowRequestApproved
    | InterestEvent | MilestoneUnlockedKind | EventMessage | EventMessageReply | PlanSessionAdded
    | EventTicketPrompt | EventMemoriesPrompt | EventReviewPrompt | PromoCodeAdded | PromoCodeMatch
    | OtherKind(name: string)  // a row of a kind this service does not handle

  datatype Feature =
    | FriendsGoing | SuggestedEvents | FriendReviews | FriendMilestones | SocialActivity
    | InterestMatches | MilestoneUnlocked | EventMessages | PlanActivity | TicketPrompt
    | PromoCodes | PromoCodeMatches | MemoriesPrompt | ReviewPrompt
    | Unlisted  // the kind has no feature

  // FEATURE_BY_KIND
  function FeatureOf(kind: Kind): Feature {
    match kind
    case SubscriptionGoing => FriendsGoing
    case SubscriptionSuggested => SuggestedEvents
    case SubscriptionReview => FriendReviews
    case SubscriptionMemories => FriendReviews
    case SubscriptionMilestone => FriendMilestones
    case NewFollower => SocialActivity
    case NewFriend => SocialActivity
    case FollowRequest => SocialActivity
    case FollowRequestApproved => SocialActivity
    case InterestEvent => InterestMatches
    case MilestoneUnlockedKind => MilestoneUnlocked
    case EventMessage => EventMessages
    case EventMessageReply => EventMessages
    case PlanSessionAdded => PlanActivity
    case EventTicketPrompt => TicketPrompt
    case PromoCodeAdded => PromoCodes
    case PromoCodeMatch => PromoCodeMatches
    case EventMemoriesPrompt => MemoriesPrompt
    case EventReviewPrompt => ReviewPrompt
    case OtherKind(_) => Unlisted
  }

  predicate IsPrompt(f: Feature) { f.TicketPrompt? || f.MemoriesPrompt? || f.ReviewPrompt? }

  predicate IsJobDelivered(f: Feature) { f.PromoCodes? }

  predicate IsDigestOnly(f: Feature) { f.MilestoneUnlocked? || IsPrompt(f) || IsJobDelivered(f) }

  predicate IsInterestPush(f: Feature) { f.InterestMatches? || f.PromoCodeMatches? }

  predicate IsActorGrouped(f: Feature) {
    f.FriendsGoing? || f.FriendReviews? || f.FriendMilestones? || f.SocialActivity?
    || f.SuggestedEvents? || f.MilestoneUnlocked?
  }

  predicate IsMilestone(kind: Kind) { kind.MilestoneUnlockedKind? || kind.SubscriptionMilestone? }

  /** The kinds a deliver job handles (FAST_PUSH_KINDS). */
  predicate IsFastPush(kind: Kind) {
    var f := FeatureOf(kind);
    f.FriendsGoing? || f.SuggestedEvents? || f.FriendReviews? || f.FriendMilestones?
    || f.SocialActivity? || f.EventMessages? || f.PlanActivity?
  }

  /** The columns of a notification that no delivery code writes. */
  datatype Note = Note(
    id: Id, recipient: UserId, actor: UserId, kind: Kind, event: Option<EventId>,
    createdAt: int, groupKey: Option<string>, context: Option<string>)
}
