/** The caller's notification feed: a chef reads the notifications addressed
    to their restaurant, anyone else those addressed to them; optional type
    and seen filters narrow the page, an optional flag marks the whole
    audience seen, and the answer carries the unseen count left after that. */
module NotificationController {
  import opened Http
  import opened Seqs
  import opened Tables

  /** The query string of `getNotifications`. */
  datatype FeedRequest = FeedRequest(kind: Option<string>, seen: Option<string>, markAsSeen: Option<string>)

  /** The answer: the page (fetched before any marking) and the unseen count. */
  datatype Feed = Feed(items: seq<Notification>, unseenCount: nat)

  /** The caller's audience: the restaurant's notifications for a chef, the
      user's own for anyone else. */
  predicate Audience(n: Notification, me: User) {
    if me.userType == Chef then n.restId == Some(me.id) else n.userId == Some(me.id)
  }

  /** The type filter, applied only for `news` and `order`. */
  predicate KindMatches(n: Notification, kind: Option<string>) {
    kind.Some? && kind.value in {"news", "order"} ==> n.kind == kind.value
  }

  /** The seen filter, applied only for `'0'` and `'1'`. */
  predicate SeenMatches(n: Notification, seen: Option<string>) {
    && (seen == Some("1") ==> n.seen)
    && (seen == Some("0") ==> !n.seen)
  }

  predicate Listed(n: Notification, me: User, req: FeedRequest) {
    Audience(n, me) && KindMatches(n, req.kind) && SeenMatches(n, req.seen)
  }

  /** The page, newest first. */
  function Listing(ns: seq<Notification>, me: User, req: FeedRequest): (r: seq<Notification>)
    ensures forall n :: n in r <==> n in ns && Listed(n, me, req)
    ensures multiset(r) == multiset(Filter(ns, (n: Notification) => Listed(n, me, req)))
    ensures SortedBy(r, (n: Notification) => n.timestamp, false)
  {
    var mine := Filter(ns, (n: Notification) => Listed(n, me, req));
    var r := SortBy(mine, (n: Notification) => n.timestamp, false);
    assert forall n :: n in r <==> n in mine by {
      forall n ensures n in r <==> n in mine {
        assert n in r <==> multiset(r)[n] > 0;
        assert n in mine <==> multiset(mine)[n] > 0;
      }
    }
    r
  }

  /** A filter value outside its list is the same as no filter. */
  lemma UnknownFiltersIgnored(ns: seq<Notification>, me: User, kind: string, seen: string, mark: Option<string>)
    requires kind !in {"news", "order"} && seen !in {"0", "1"}
    ensures forall n :: n in Listing(ns, me, FeedRequest(Some(kind), Some(seen), mark)) <==>
                        n in Listing(ns, me, FeedRequest(None, None, mark))
  {
  }

  predicate Unseen(n: Notification, me: User) {
    Audience(n, me) && !n.seen
  }

  /** The number of the caller's unseen notifications. */
  function UnseenCount(ns: seq<Notification>, me: User): (n: nat)
    ensures n <= |ns|
  {
    if ns == [] then 0
    else UnseenCount(ns[..|ns| - 1], me) + (if Unseen(ns[|ns| - 1], me) then 1 else 0)
  }

  lemma {:induction false} UnseenCountZero(ns: seq<Notification>, me: User)
    ensures UnseenCount(ns, me) == 0 <==> forall i :: 0 <= i < |ns| ==> !Unseen(ns[i], me)
  {
    if ns != [] {
      var init := ns[..|ns| - 1];
      UnseenCountZero(init, me);
      assert forall i :: 0 <= i < |init| ==> init[i] == ns[i];
    }
  }

  /** The table after marking: every notification of the caller's audience
      is seen, whatever the filters were; nothing else changes. */
  function MarkAll(ns: seq<Notification>, me: User): (r: seq<Notification>)
    ensures |r| == |ns|
    ensures forall i :: 0 <= i < |r| ==> r[i].(seen := ns[i].seen) == ns[i]
    ensures forall i :: 0 <= i < |r| ==> (r[i].seen <==> ns[i].seen || Audience(ns[i], me))
  {
    seq(|ns|, i requires 0 <= i < |ns| => if Unseen(ns[i], me) then ns[i].(seen := true) else ns[i])
  }

  /** After marking, the caller has no unseen notification. */
  lemma MarkAllClears(ns: seq<Notification>, me: User)
    ensures UnseenCount(MarkAll(ns, me), me) == 0
  {
    UnseenCountZero(MarkAll(ns, me), me);
  }

  /** Marking keeps every other reader's count. */
  lemma {:induction false} MarkAllKeepsOthers(ns: seq<Notification>, me: User, other: User)
    requires forall i :: 0 <= i < |ns| ==> !(Audience(ns[i], me) && Audience(ns[i], other))
    ensures UnseenCount(MarkAll(ns, me), other) == UnseenCount(ns, other)
  {
    if ns != [] {
      var init := ns[..|ns| - 1];
      assert MarkAll(ns, me)[..|ns| - 1] == MarkAll(init, me);
      MarkAllKeepsOthers(init, me, other);
    }
  }

  /** `getNotifications`. The marking is an update over the caller's audience,
      written here as a pass over the table. */
  method GetNotifications(db: Db, me: User, req: FeedRequest) returns (feed: Feed)
    requires db.Valid()
    modifies db`notifications
    ensures db.Valid()
    ensures feed.items == Listing(old(db.notifications), me, req)
    ensures db.notifications == if req.markAsSeen == Some("1") then MarkAll(old(db.notifications), me) else old(db.notifications)
    ensures feed.unseenCount == UnseenCount(db.notifications, me)
    ensures req.markAsSeen == Some("1") ==> feed.unseenCount == 0
  {
    var items := Listing(db.notifications, me, req);
    if req.markAsSeen == Some("1") {
      ghost var before := db.notifications;
      var i := 0;
      while i < |db.notifications|
        invariant 0 <= i <= |db.notifications| == |before|
        invariant forall j :: 0 <= j < i ==> db.notifications[j] == MarkAll(before, me)[j]
        invariant forall j :: i <= j < |before| ==> db.notifications[j] == before[j]
        invariant forall j :: 0 <= j < |before| ==> db.notifications[j].id == before[j].id
      {
        if Unseen(db.notifications[i], me) {
          db.notifications := db.notifications[i := db.notifications[i].(seen := true)];
        }
        i := i + 1;
      }
      MarkAllClears(before, me);
    }
    feed := Feed(items, UnseenCount(db.notifications, me));
  }
}
