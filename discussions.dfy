/**
 * The in-memory discussion board (src/pages/Discussions.tsx): a list of discussions,
 * newest first, each with its comments, like counters, a draft for a new discussion and
 * one comment draft per discussion.
 *
 * The list transforms (`AddDiscussion`, `AddComment`, `Like`) are functions over
 * `seq<Discussion>`; the component state is the class `Board`, whose handlers are proved
 * to apply them. The invariant `WellNumbered` (discussion ids count down from the length
 * of the list, comment ids count up from 1) holds initially and is kept by every handler,
 * and it is what makes discussion ids unique.
 */
module Discussions {

  datatype Comment = Comment(
    id: int, author: string, authorAvatar: string, content: string, likes: int, timestamp: string)

  datatype Discussion = Discussion(
    id: int, author: string, authorAvatar: string, title: string, content: string,
    likes: int, comments: seq<Comment>, timestamp: string)

  /** The two fields of the "new discussion" form. */
  datatype DiscussionDraft = DiscussionDraft(title: string, content: string)

  /** The notification a handler raises. */
  datatype Notice = FieldsRequired | DiscussionAdded | CommentAdded

  /** Author, avatar and timestamp the board stamps on everything it creates. */
  const CurrentAuthor := "أحمد محمد"
  const PlaceholderAvatar := "/placeholder.svg"
  const JustNow := "الآن"

  const EmptyDraft := DiscussionDraft("", "")

  /** The board the page starts with: one discussion with one comment. */
  function InitialDiscussions(): seq<Discussion>
  {
    [Discussion(
      1, CurrentAuthor, PlaceholderAvatar,
      "سؤال حول القانون التجاري",
      "ما هي الشروط الأساسية لتأسيس شركة ذات مسؤولية محدودة؟",
      5,
      [Comment(
        1, "سارة أحمد", PlaceholderAvatar,
        "من أهم الشروط وجود شريكين على الأقل، ورأس مال لا يقل عن الحد الأدنى المحدد قانونياً.",
        3, "منذ ساعتين")],
      "منذ 3 ساعات")]
  }

  /** Comment ids are 1, 2, 3, ... in list order. */
  ghost predicate CommentsNumbered(cs: seq<Comment>)
  {
    forall j :: 0 <= j < |cs| ==> cs[j].id == j + 1
  }

  /** The board's invariant: the discussion at position i has id |ds| - i (newest first),
      and each discussion's comments are numbered from 1. */
  ghost predicate WellNumbered(ds: seq<Discussion>)
  {
    forall i :: 0 <= i < |ds| ==> ds[i].id == |ds| - i && CommentsNumbered(ds[i].comments)
  }

  /** `handleAddDiscussion`: a draft with an empty title or content is refused and nothing
      changes; otherwise a discussion with id `length + 1`, no likes and no comments is put
      in front of the list and the draft is cleared. */
  function AddDiscussion(ds: seq<Discussion>, draft: DiscussionDraft): (r: (seq<Discussion>, DiscussionDraft))
    ensures draft.title == "" || draft.content == "" ==> r == (ds, draft)
    ensures draft.title != "" && draft.content != "" ==>
      && |r.0| == |ds| + 1 && r.0[1..] == ds && r.1 == EmptyDraft
      && r.0[0].id == |ds| + 1 && r.0[0].likes == 0 && r.0[0].comments == []
      && r.0[0].title == draft.title && r.0[0].content == draft.content
  {
    if draft.title == "" || draft.content == "" then (ds, draft)
    else
      var d := Discussion(|ds| + 1, CurrentAuthor, PlaceholderAvatar, draft.title, draft.content, 0, [], JustNow);
      ([d] + ds, EmptyDraft)
  }

  /** The comment draft of a discussion; an absent entry reads as the empty string. */
  function CommentDraft(drafts: map<int, string>, discussionId: int): string
  {
    if discussionId in drafts then drafts[discussionId] else ""
  }

  /** The discussion `d` with `content` appended as its next comment. */
  function WithComment(d: Discussion, content: string): Discussion
  {
    d.(comments := d.comments + [Comment(|d.comments| + 1, CurrentAuthor, PlaceholderAvatar, content, 0, JustNow)])
  }

  /** The `discussions.map(...)` of `handleAddComment`. */
  function AppendComment(ds: seq<Discussion>, discussionId: int, content: string): (r: seq<Discussion>)
    ensures |r| == |ds|
    ensures forall i :: 0 <= i < |ds| && ds[i].id != discussionId ==> r[i] == ds[i]
    ensures forall i :: 0 <= i < |ds| && ds[i].id == discussionId ==>
      && |r[i].comments| == |ds[i].comments| + 1
      && r[i].comments[..|ds[i].comments|] == ds[i].comments
      && r[i] == ds[i].(comments := r[i].comments)
  {
    seq(|ds|, i requires 0 <= i < |ds| => if ds[i].id == discussionId then WithComment(ds[i], content) else ds[i])
  }

  /** `handleAddComment`: with an empty or absent draft nothing changes; otherwise the draft
      is appended to the discussion with that id and that discussion's draft is reset. */
  function AddComment(ds: seq<Discussion>, drafts: map<int, string>, discussionId: int): (r: (seq<Discussion>, map<int, string>))
    ensures CommentDraft(drafts, discussionId) == "" ==> r == (ds, drafts)
    ensures CommentDraft(drafts, discussionId) != "" ==>
      r.1 == drafts[discussionId := ""] && r.0 == AppendComment(ds, discussionId, drafts[discussionId])
  {
    var comment := CommentDraft(drafts, discussionId);
    if comment == "" then (ds, drafts)
    else (AppendComment(ds, discussionId, comment), drafts[discussionId := ""])
  }

  /** `handleLike`: the discussion with that id gets one more like; nothing else changes. */
  function Like(ds: seq<Discussion>, discussionId: int): (r: seq<Discussion>)
    ensures |r| == |ds|
    ensures forall i :: 0 <= i < |ds| && ds[i].id != discussionId ==> r[i] == ds[i]
    ensures forall i :: 0 <= i < |ds| && ds[i].id == discussionId ==> r[i] == ds[i].(likes := ds[i].likes + 1)
  {
    seq(|ds|, i requires 0 <= i < |ds| => if ds[i].id == discussionId then ds[i].(likes := ds[i].likes + 1) else ds[i])
  }

  function TotalLikes(ds: seq<Discussion>): int
  {
    if ds == [] then 0 else ds[0].likes + TotalLikes(ds[1..])
  }

  function TotalComments(ds: seq<Discussion>): nat
  {
    if ds == [] then 0 else |ds[0].comments| + TotalComments(ds[1..])
  }

  /** How many discussions carry the id `discussionId`. */
  function IdCount(ds: seq<Discussion>, discussionId: int): nat
  {
    if ds == [] then 0 else (if ds[0].id == discussionId then 1 else 0) + IdCount(ds[1..], discussionId)
  }

  lemma InitialIsWellNumbered()
    ensures WellNumbered(InitialDiscussions())
  {
  }

  lemma WellNumberedTail(ds: seq<Discussion>)
    requires WellNumbered(ds) && ds != []
    ensures WellNumbered(ds[1..])
  {
    forall i | 0 <= i < |ds[1..]| ensures ds[1..][i].id == |ds[1..]| - i && CommentsNumbered(ds[1..][i].comments) {
      assert ds[1..][i] == ds[i + 1];
    }
  }

  function Ids(ds: seq<Discussion>): set<int>
  {
    set d | d in ds :: d.id
  }

  /** Under the invariant the ids are pairwise distinct and are exactly 1..n. */
  lemma WellNumberedIds(ds: seq<Discussion>)
    requires WellNumbered(ds)
    ensures forall i, j :: 0 <= i < j < |ds| ==> ds[i].id != ds[j].id
    ensures forall k :: k in Ids(ds) <==> 1 <= k <= |ds|
  {
    var ids := Ids(ds);
    forall k | 1 <= k <= |ds| ensures k in ids {
      assert ds[|ds| - k] in ds;
    }
    forall k | k in ids ensures 1 <= k <= |ds| {
      var d :| d in ds && d.id == k;
      var i :| 0 <= i < |ds| && ds[i] == d;
    }
  }

  /** Under the invariant exactly one discussion carries an id in 1..n, and none another. */
  lemma {:induction false} IdCountWellNumbered(ds: seq<Discussion>, discussionId: int)
    requires WellNumbered(ds)
    ensures IdCount(ds, discussionId) == if 1 <= discussionId <= |ds| then 1 else 0
  {
    if ds != [] {
      WellNumberedTail(ds);
      IdCountWellNumbered(ds[1..], discussionId);
    }
  }

  lemma AddDiscussionKeepsNumbering(ds: seq<Discussion>, draft: DiscussionDraft)
    requires WellNumbered(ds)
    ensures WellNumbered(AddDiscussion(ds, draft).0)
  {
    var r := AddDiscussion(ds, draft).0;
    if draft.title != "" && draft.content != "" {
      forall i | 0 <= i < |r| ensures r[i].id == |r| - i && CommentsNumbered(r[i].comments) {
        if i > 0 {
          assert r[i] == r[1..][i - 1] == ds[i - 1];
        }
      }
    }
  }

  lemma AddCommentKeepsNumbering(ds: seq<Discussion>, drafts: map<int, string>, discussionId: int)
    requires WellNumbered(ds)
    ensures WellNumbered(AddComment(ds, drafts, discussionId).0)
  {
    var r := AddComment(ds, drafts, discussionId).0;
    forall i | 0 <= i < |r| ensures r[i].id == |r| - i && CommentsNumbered(r[i].comments) {
      if r[i] != ds[i] {
        var cs := r[i].comments;
        assert cs == ds[i].comments + [cs[|cs| - 1]];
      }
    }
  }

  lemma LikeKeepsNumbering(ds: seq<Discussion>, discussionId: int)
    requires WellNumbered(ds)
    ensures WellNumbered(Like(ds, discussionId))
  {
  }

  /** One like: the total like count grows by the number of discussions with that id,
      which under the invariant is one for a known id and zero for an unknown one. */
  lemma {:induction false} LikeAddsOne(ds: seq<Discussion>, discussionId: int)
    ensures TotalLikes(Like(ds, discussionId)) == TotalLikes(ds) + IdCount(ds, discussionId)
  {
    if ds != [] {
      assert Like(ds, discussionId)[1..] == Like(ds[1..], discussionId);
      LikeAddsOne(ds[1..], discussionId);
    }
  }

  /** A comment with a non-empty draft adds exactly one comment on the board when the id is
      known, and none when it is not; a comment's id is its position plus one. */
  lemma {:induction false} AppendCommentAddsOne(ds: seq<Discussion>, discussionId: int, content: string)
    ensures TotalComments(AppendComment(ds, discussionId, content)) == TotalComments(ds) + IdCount(ds, discussionId)
  {
    if ds != [] {
      assert AppendComment(ds, discussionId, content)[1..] == AppendComment(ds[1..], discussionId, content);
      AppendCommentAddsOne(ds[1..], discussionId, content);
    }
  }

  /** The new comment is the last one of its discussion, numbered after the others, with
      no likes and the draft as its text. */
  lemma AppendedComment(ds: seq<Discussion>, i: int, content: string)
    requires 0 <= i < |ds|
    ensures var cs := AppendComment(ds, ds[i].id, content)[i].comments;
      && |cs| == |ds[i].comments| + 1
      && cs[|cs| - 1] == Comment(|ds[i].comments| + 1, CurrentAuthor, PlaceholderAvatar, content, 0, JustNow)
  {
  }

  /** The like button under a comment calls `handleLike(comment.id)`: it never changes any
      comment's counter, and under the invariant it likes the discussion whose id equals the
      comment's position plus one, if there is one. */
  lemma CommentLikeHitsDiscussion(ds: seq<Discussion>, i: int, j: int)
    requires WellNumbered(ds) && 0 <= i < |ds| && 0 <= j < |ds[i].comments|
    ensures var r := Like(ds, ds[i].comments[j].id);
      && (forall k :: 0 <= k < |ds| ==> r[k].comments == ds[k].comments)
      && (j < |ds| ==> r[|ds| - 1 - j].likes == ds[|ds| - 1 - j].likes + 1)
      && TotalLikes(r) == TotalLikes(ds) + (if j < |ds| then 1 else 0)
  {
    LikeAddsOne(ds, ds[i].comments[j].id);
    IdCountWellNumbered(ds, ds[i].comments[j].id);
  }

  /** The state of the page. */
  class Board {
    var discussions: seq<Discussion>
    var newDiscussion: DiscussionDraft
    var newComments: map<int, string>

    ghost predicate Valid()
      reads this
    {
      WellNumbered(discussions)
    }

    constructor ()
      ensures Valid()
      ensures discussions == InitialDiscussions() && newDiscussion == EmptyDraft && newComments == map[]
    {
      discussions := InitialDiscussions();
      newDiscussion := EmptyDraft;
      newComments := map[];
    }

    /** Typing in the title field of the new-discussion form. */
    method EditTitle(title: string)
      modifies this
      ensures newDiscussion == old(newDiscussion).(title := title)
      ensures discussions == old(discussions) && newComments == old(newComments)
    {
      newDiscussion := newDiscussion.(title := title);
    }

    /** Typing in the content field of the new-discussion form. */
    method EditContent(content: string)
      modifies this
      ensures newDiscussion == old(newDiscussion).(content := content)
      ensures discussions == old(discussions) && newComments == old(newComments)
    {
      newDiscussion := newDiscussion.(content := content);
    }

    /** Typing in the comment box under a discussion. */
    method EditCommentDraft(discussionId: int, text: string)
      modifies this
      ensures newComments == old(newComments)[discussionId := text]
      ensures discussions == old(discussions) && newDiscussion == old(newDiscussion)
    {
      newComments := newComments[discussionId := text];
    }

    method HandleAddDiscussion() returns (notice: Notice)
      requires Valid()
      modifies this
      ensures Valid()
      ensures (discussions, newDiscussion) == AddDiscussion(old(discussions), old(newDiscussion))
      ensures newComments == old(newComments)
      ensures notice == if old(newDiscussion.title) == "" || old(newDiscussion.content) == "" then FieldsRequired else DiscussionAdded
    {
      if newDiscussion.title == "" || newDiscussion.content == "" {
        notice := FieldsRequired;
        return;
      }
      AddDiscussionKeepsNumbering(discussions, newDiscussion);
      var discussion := Discussion(
        |discussions| + 1, CurrentAuthor, PlaceholderAvatar,
        newDiscussion.title, newDiscussion.content, 0, [], JustNow);
      discussions := [discussion] + discussions;
      newDiscussion := EmptyDraft;
      notice := DiscussionAdded;
    }

    /** Returns whether a comment was posted (and the success notification shown). */
    method HandleAddComment(discussionId: int) returns (posted: bool)
      requires Valid()
      modifies this
      ensures Valid()
      ensures posted <==> CommentDraft(old(newComments), discussionId) != ""
      ensures (discussions, newComments) == AddComment(old(discussions), old(newComments), discussionId)
      ensures newDiscussion == old(newDiscussion)
    {
      var comment := CommentDraft(newComments, discussionId);
      if comment == "" {
        posted := false;
        return;
      }
      AddCommentKeepsNumbering(discussions, newComments, discussionId);
      discussions := AppendComment(discussions, discussionId, comment);
      newComments := newComments[discussionId := ""];
      posted := true;
    }

    method HandleLike(discussionId: int)
      requires Valid()
      modifies this
      ensures Valid()
      ensures discussions == Like(old(discussions), discussionId)
      ensures newDiscussion == old(newDiscussion) && newComments == old(newComments)
    {
      discussions := Like(discussions, discussionId);
    }
  }
}
