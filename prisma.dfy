/** The database example's pure parts: the record transforms from database
    rows to the library's types, the tag-occurrence count of `getAllTags`,
    and the per-ticket tag removal of `removeTagFromCategory`. */
module PrismaExample {
  import opened Base
  import opened Text
  import opened Types
  import TicketSchema

  // ---------------------------------------------------------------------
  // Transforms
  // ---------------------------------------------------------------------

  /** Database rows. Roles, priorities and statuses are stored upper-case;
      relations that were not loaded are absent. */
  datatype PrismaUser = PrismaUser(id: string, name: string, email: string, avatar: Avatar, role: string)

  datatype PrismaAttachment = PrismaAttachment(
    id: string, filename: string, url: string, size: nat, mimeType: string,
    uploadedAt: Date, uploadedBy: PrismaUser)

  datatype PrismaComment = PrismaComment(
    id: string, content: string, createdAt: Date, author: PrismaUser, ticketId: string,
    attachments: Option<seq<PrismaAttachment>>)

  datatype PrismaTicket = PrismaTicket(
    id: string, title: string, description: string, priority: string, status: string,
    category: string, tags: Option<seq<Tag>>, createdAt: Date, updatedAt: Date,
    author: PrismaUser, assignedTo: Option<PrismaUser>, comments: Option<seq<PrismaComment>>,
    attachments: Option<seq<PrismaAttachment>>, hoursSpent: Option<real>,
    startDate: Option<Date>, endDate: Option<Date>)

  /** `transformPrismaUserToUser`: the role lower-cased, the rest copied. */
  function TransformUser(p: PrismaUser): (u: User)
    ensures u.id == p.id && u.name == p.name && u.email == p.email && u.avatar == p.avatar
    ensures u.role == Lower(p.role)
  {
    User(p.id, p.name, p.email, p.avatar, Lower(p.role))
  }

  /** The stored role names map onto the library's roles, and a role that is
      already lower-case is kept as it is. */
  lemma TransformedRoles(p: PrismaUser)
    ensures p.role == "ADMIN" ==> TransformUser(p).role == ADMIN_ROLE
    ensures p.role == "AGENT" ==> TransformUser(p).role == AGENT_ROLE
    ensures p.role == "USER" ==> TransformUser(p).role == USER_ROLE
    ensures Lower(TransformUser(p).role) == TransformUser(p).role
  {
  }

  function TransformAttachment(p: PrismaAttachment): (a: Attachment)
    ensures a.id == p.id && a.filename == p.filename && a.url == p.url && a.size == p.size
    ensures a.mimeType == p.mimeType && a.uploadedAt == p.uploadedAt
    ensures a.uploadedBy == TransformUser(p.uploadedBy)
  {
    Attachment(p.id, p.filename, p.url, p.size, p.mimeType, p.uploadedAt, TransformUser(p.uploadedBy))
  }

  /** `list?.map(f) || []`: the mapped list, or [] when it is absent. */
  function MapOrEmpty<T, U>(xs: Option<seq<T>>, f: T -> U): (r: seq<U>)
    ensures xs.None? ==> r == []
    ensures xs.Some? ==> |r| == |xs.value| && forall i :: 0 <= i < |r| ==> r[i] == f(xs.value[i])
  {
    if xs.Some? then Map(xs.value, f) else []
  }

  /** `transformPrismaCommentToComment`: attachments are always defined. */
  function TransformComment(p: PrismaComment): (c: Comment)
    ensures c.id == p.id && c.content == p.content && c.createdAt == p.createdAt
    ensures c.author == TransformUser(p.author) && c.ticketId == p.ticketId
    ensures c.attachments == Some(MapOrEmpty(p.attachments, TransformAttachment))
  {
    Comment(p.id, p.content, p.createdAt, TransformUser(p.author), p.ticketId,
      Some(MapOrEmpty(p.attachments, TransformAttachment)))
  }

  /** `transformPrismaTicketToTicket`: priority and status lower-cased;
      missing tags, comments and attachments become []; a missing assignee
      stays undefined. */
  function TransformTicket(p: PrismaTicket): (t: Ticket)
    ensures t.id == p.id && t.title == p.title && t.description == p.description
    ensures t.priority == Lower(p.priority) && t.status == Lower(p.status) && t.category == p.category
    ensures t.tags == Some(p.tags.GetOr([]))
    ensures t.author == TransformUser(p.author)
    ensures t.assignedTo.None? <==> p.assignedTo.None?
    ensures p.assignedTo.Some? ==> t.assignedTo == Some(TransformUser(p.assignedTo.value))
    ensures t.comments == Some(MapOrEmpty(p.comments, TransformComment))
    ensures t.attachments == Some(MapOrEmpty(p.attachments, TransformAttachment))
    ensures t.createdAt == p.createdAt && t.updatedAt == p.updatedAt
    ensures t.hoursSpent == p.hoursSpent && t.startDate == p.startDate && t.endDate == p.endDate
  {
    Ticket(p.id, p.title, p.description, Lower(p.priority), Lower(p.status), p.category,
      Some(p.tags.GetOr([])), p.createdAt, p.updatedAt, TransformUser(p.author),
      if p.assignedTo.Some? then Some(TransformUser(p.assignedTo.value)) else None,
      Some(MapOrEmpty(p.comments, TransformComment)),
      Some(MapOrEmpty(p.attachments, TransformAttachment)),
      p.hoursSpent, p.startDate, p.endDate)
  }

  /** The stored priorities become priorities the ticket schema accepts. */
  lemma TransformedPriorityValid(p: PrismaTicket)
    requires p.priority == "LOW" || p.priority == "MEDIUM" || p.priority == "HIGH"
    ensures TicketSchema.PriorityOk(TransformTicket(p).priority)
  {
    var r := TransformTicket(p).priority;
    if p.priority == "LOW" {
      assert r == "low";
    } else if p.priority == "MEDIUM" {
      assert r == "medium";
    } else {
      assert r == "high";
    }
  }

  // ---------------------------------------------------------------------
  // getAllTags
  // ---------------------------------------------------------------------

  /** One entry of `tagCounts`. */
  datatype TagCount = TagCount(value: Option<string>, caption: string, color: Option<string>, count: nat)

  /** The property name `tag.value` indexes `tagCounts` with: an undefined
      value is the key "undefined". */
  function KeyOf(t: Tag): string {
    t.value.GetOr("undefined")
  }

  function EntryKey(e: TagCount): string {
    e.value.GetOr("undefined")
  }

  function EntryKeyIs(key: string): TagCount -> bool {
    (e: TagCount) => EntryKey(e) == key
  }

  function TagKeyIs(key: string): Tag -> bool {
    (t: Tag) => KeyOf(t) == key
  }

  /** The tags of the tickets, ticket after ticket, in order. */
  function AllTags(tickets: seq<Ticket>): seq<Tag> {
    if tickets == [] then []
    else AllTags(tickets[..|tickets| - 1]) + tickets[|tickets| - 1].tags.GetOr([])
  }

  /** One step of the `forEach`: count the tag under its key, or open an entry
      for it with its label and colour and a count of 1. */
  function AddTag(counts: seq<TagCount>, t: Tag): seq<TagCount> {
    var k := FindIndex(counts, EntryKeyIs(KeyOf(t)));
    if k >= 0 then counts[k := counts[k].(count := counts[k].count + 1)]
    else counts + [TagCount(t.value, t.caption, t.color, 1)]
  }

  /** `tagCounts` after visiting `tags`, entries in the order their keys were
      first met. */
  function Tally(tags: seq<Tag>): seq<TagCount> {
    if tags == [] then [] else AddTag(Tally(tags[..|tags| - 1]), tags[|tags| - 1])
  }

  /** How often a key occurs among the tags. */
  function Occurrences(tags: seq<Tag>, key: string): nat {
    if tags == [] then 0
    else Occurrences(tags[..|tags| - 1], key) + (if KeyOf(tags[|tags| - 1]) == key then 1 else 0)
  }

  function SumCounts(counts: seq<TagCount>): nat {
    if counts == [] then 0 else counts[0].count + SumCounts(counts[1..])
  }

  predicate DistinctKeys(counts: seq<TagCount>) {
    forall i, j :: 0 <= i < j < |counts| ==> EntryKey(counts[i]) != EntryKey(counts[j])
  }

  /** The entry's value, label and colour are those of the first tag with its
      key. */
  predicate FromFirstOccurrence(tags: seq<Tag>, e: TagCount) {
    var k := FindIndex(tags, TagKeyIs(EntryKey(e)));
    k >= 0 && e.value == tags[k].value && e.caption == tags[k].caption && e.color == tags[k].color
  }

  predicate CountsMatch(tags: seq<Tag>, counts: seq<TagCount>) {
    forall i :: 0 <= i < |counts| ==> counts[i].count == Occurrences(tags, EntryKey(counts[i]))
  }

  predicate FirstOccurrences(tags: seq<Tag>, counts: seq<TagCount>) {
    forall i :: 0 <= i < |counts| ==> FromFirstOccurrence(tags, counts[i])
  }

  /** Every tag's key has an entry. */
  predicate Covers(tags: seq<Tag>, counts: seq<TagCount>) {
    forall m :: 0 <= m < |tags| ==> Any(counts, EntryKeyIs(KeyOf(tags[m])))
  }

  /** What the count promises about the entries for `tags`. */
  predicate TallyFacts(tags: seq<Tag>, counts: seq<TagCount>) {
    DistinctKeys(counts) && CountsMatch(tags, counts) && FirstOccurrences(tags, counts)
    && Covers(tags, counts) && SumCounts(counts) == |tags|
  }

  lemma {:induction false} SumAppend(counts: seq<TagCount>, e: TagCount)
    ensures SumCounts(counts + [e]) == SumCounts(counts) + e.count
  {
    if counts != [] {
      assert (counts + [e])[1..] == counts[1..] + [e];
      SumAppend(counts[1..], e);
    }
  }

  lemma {:induction false} SumUpdate(counts: seq<TagCount>, k: nat, e: TagCount)
    requires k < |counts|
    ensures SumCounts(counts[k := e]) == SumCounts(counts) - counts[k].count + e.count
  {
    if k > 0 {
      assert counts[k := e][1..] == counts[1..][k - 1 := e];
      SumUpdate(counts[1..], k - 1, e);
    }
  }

  lemma OccurrencesAppend(tags: seq<Tag>, t: Tag, key: string)
    ensures Occurrences(tags + [t], key) == Occurrences(tags, key) + (if KeyOf(t) == key then 1 else 0)
  {
    assert (tags + [t])[..|tags|] == tags;
  }

  lemma {:induction false} OccurrencesAbsent(tags: seq<Tag>, key: string)
    requires forall m :: 0 <= m < |tags| ==> KeyOf(tags[m]) != key
    ensures Occurrences(tags, key) == 0
  {
    if tags != [] {
      OccurrencesAbsent(tags[..|tags| - 1], key);
    }
  }

  /** The shape of one step: an existing key keeps every entry's key and
      payload and bumps one count; a new key appends a fresh entry. */
  lemma AddTagShape(counts: seq<TagCount>, t: Tag)
    ensures var r := AddTag(counts, t);
      var k := FindIndex(counts, EntryKeyIs(KeyOf(t)));
      k >= 0 ==> (|r| == |counts| && r[k].count == counts[k].count + 1
        && forall i :: 0 <= i < |r| ==> (EntryKey(r[i]) == EntryKey(counts[i])
          && r[i] == counts[i].(count := r[i].count)
          && (i != k ==> r[i] == counts[i])))
    ensures var r := AddTag(counts, t);
      var k := FindIndex(counts, EntryKeyIs(KeyOf(t)));
      k < 0 ==> (r == counts + [TagCount(t.value, t.caption, t.color, 1)]
        && forall i :: 0 <= i < |counts| ==> EntryKey(counts[i]) != KeyOf(t))
  {
  }

  lemma {:induction false} AddTagDistinct(counts: seq<TagCount>, t: Tag)
    requires DistinctKeys(counts)
    ensures DistinctKeys(AddTag(counts, t))
  {
    AddTagShape(counts, t);
  }

  lemma {:induction false} AddTagSum(counts: seq<TagCount>, t: Tag)
    ensures SumCounts(AddTag(counts, t)) == SumCounts(counts) + 1
  {
    var k := FindIndex(counts, EntryKeyIs(KeyOf(t)));
    if k >= 0 {
      SumUpdate(counts, k, counts[k].(count := counts[k].count + 1));
    } else {
      SumAppend(counts, TagCount(t.value, t.caption, t.color, 1));
    }
  }

  lemma {:induction false} AddTagCovers(tags: seq<Tag>, counts: seq<TagCount>, t: Tag)
    requires Covers(tags, counts)
    ensures Covers(tags + [t], AddTag(counts, t))
  {
    var all := tags + [t];
    var r := AddTag(counts, t);
    var k := FindIndex(counts, EntryKeyIs(KeyOf(t)));
    AddTagShape(counts, t);
    forall m | 0 <= m < |all|
      ensures Any(r, EntryKeyIs(KeyOf(all[m])))
    {
      if m < |tags| {
        assert all[m] == tags[m];
        var w :| 0 <= w < |counts| && EntryKeyIs(KeyOf(tags[m]))(counts[w]);
        assert EntryKeyIs(KeyOf(all[m]))(r[w]);
      } else if k >= 0 {
        assert EntryKeyIs(KeyOf(all[m]))(r[k]);
      } else {
        assert EntryKeyIs(KeyOf(all[m]))(r[|counts|]);
      }
    }
  }

  /** Before a new key is met, no tag so far has it. */
  lemma NewKeyUnseen(tags: seq<Tag>, counts: seq<TagCount>, key: string)
    requires Covers(tags, counts)
    requires forall i :: 0 <= i < |counts| ==> EntryKey(counts[i]) != key
    ensures forall m :: 0 <= m < |tags| ==> KeyOf(tags[m]) != key
  {
    forall m | 0 <= m < |tags| ensures KeyOf(tags[m]) != key {
      assert Any(counts, EntryKeyIs(KeyOf(tags[m])));
    }
  }

  lemma {:induction false} AddTagCounts(tags: seq<Tag>, counts: seq<TagCount>, t: Tag)
    requires DistinctKeys(counts) && CountsMatch(tags, counts) && Covers(tags, counts)
    ensures CountsMatch(tags + [t], AddTag(counts, t))
  {
    var r := AddTag(counts, t);
    var k := FindIndex(counts, EntryKeyIs(KeyOf(t)));
    AddTagShape(counts, t);
    forall i | 0 <= i < |r|
      ensures r[i].count == Occurrences(tags + [t], EntryKey(r[i]))
    {
      OccurrencesAppend(tags, t, EntryKey(r[i]));
      if k < 0 && i == |counts| {
        NewKeyUnseen(tags, counts, KeyOf(t));
        OccurrencesAbsent(tags, KeyOf(t));
      }
    }
  }

  lemma {:induction false} AddTagFirst(tags: seq<Tag>, counts: seq<TagCount>, t: Tag)
    requires FirstOccurrences(tags, counts) && Covers(tags, counts)
    ensures FirstOccurrences(tags + [t], AddTag(counts, t))
  {
    var all := tags + [t];
    var r := AddTag(counts, t);
    var k := FindIndex(counts, EntryKeyIs(KeyOf(t)));
    AddTagShape(counts, t);
    forall i | 0 <= i < |r|
      ensures FromFirstOccurrence(all, r[i])
    {
      if i < |counts| {
        assert FromFirstOccurrence(tags, counts[i]);
        FindIndexAppend(tags, [t], TagKeyIs(EntryKey(counts[i])));
      } else {
        NewKeyUnseen(tags, counts, KeyOf(t));
        FindIsFirst(all, TagKeyIs(KeyOf(t)), |tags|);
      }
    }
  }

  /** Counting one more tag keeps every promise. */
  lemma {:induction false} AddTagKeepsFacts(tags: seq<Tag>, counts: seq<TagCount>, t: Tag)
    requires TallyFacts(tags, counts)
    ensures TallyFacts(tags + [t], AddTag(counts, t))
  {
    AddTagDistinct(counts, t);
    AddTagSum(counts, t);
    AddTagCovers(tags, counts, t);
    AddTagCounts(tags, counts, t);
    AddTagFirst(tags, counts, t);
  }

  /** The whole count keeps its promises: one entry per distinct key, each
      with that key's number of occurrences and its first occurrence's label
      and colour, every key present, and the counts summing to the number of
      tags. */
  lemma {:induction false} TallyCorrect(tags: seq<Tag>)
    ensures TallyFacts(tags, Tally(tags))
  {
    if tags != [] {
      var init := tags[..|tags| - 1];
      var last := tags[|tags| - 1];
      assert tags == init + [last];
      TallyCorrect(init);
      AddTagKeepsFacts(init, Tally(init), last);
    }
  }

  /** Non-increasing counts. */
  predicate SortedByCount(counts: seq<TagCount>) {
    forall i, j :: 0 <= i < j < |counts| ==> counts[i].count >= counts[j].count
  }

  /** Places `x` before the first entry whose count is not larger, so that
      entries with equal counts keep their order. */
  function InsertByCount(x: TagCount, s: seq<TagCount>): (r: seq<TagCount>)
    ensures multiset(r) == multiset(s) + multiset{x}
    ensures SumCounts(r) == SumCounts(s) + x.count
  {
    if s == [] || s[0].count <= x.count then [x] + s
    else
      var rest := InsertByCount(x, s[1..]);
      assert s == [s[0]] + s[1..];
      assert ([s[0]] + rest)[1..] == rest;
      [s[0]] + rest
  }

  /** No entry of the insertion counts more than a bound that `x` and `s`
      respect. */
  lemma {:induction false} InsertBounded(x: TagCount, s: seq<TagCount>, bound: nat)
    requires x.count <= bound
    requires forall i :: 0 <= i < |s| ==> s[i].count <= bound
    ensures forall i :: 0 <= i < |InsertByCount(x, s)| ==> InsertByCount(x, s)[i].count <= bound
  {
    if s != [] && s[0].count > x.count {
      InsertBounded(x, s[1..], bound);
      assert InsertByCount(x, s) == [s[0]] + InsertByCount(x, s[1..]);
    }
  }

  /** A head counting at least as much as a sorted tail keeps it sorted. */
  lemma ConsSorted(h: TagCount, t: seq<TagCount>)
    requires SortedByCount(t)
    requires forall i :: 0 <= i < |t| ==> t[i].count <= h.count
    ensures SortedByCount([h] + t)
  {
    var r := [h] + t;
    forall i, j | 0 <= i < j < |r| ensures r[i].count >= r[j].count {
      assert r[j] == t[j - 1];
      if i > 0 {
        assert r[i] == t[i - 1];
      }
    }
  }

  lemma {:induction false} InsertSorted(x: TagCount, s: seq<TagCount>)
    requires SortedByCount(s)
    ensures SortedByCount(InsertByCount(x, s))
  {
    if s != [] && s[0].count > x.count {
      var tail := s[1..];
      assert SortedByCount(tail) by {
        forall i, j | 0 <= i < j < |tail| ensures tail[i].count >= tail[j].count {
          assert tail[i] == s[i + 1] && tail[j] == s[j + 1];
        }
      }
      InsertSorted(x, tail);
      assert forall i :: 0 <= i < |tail| ==> tail[i].count <= s[0].count by {
        forall i | 0 <= i < |tail| ensures tail[i].count <= s[0].count {
          assert tail[i] == s[i + 1];
        }
      }
      InsertBounded(x, tail, s[0].count);
      ConsSorted(s[0], InsertByCount(x, tail));
    }
  }

  /** A key that neither `x` nor `s` has is not in the insertion either. */
  lemma {:induction false} InsertAvoids(x: TagCount, s: seq<TagCount>, key: string)
    requires EntryKey(x) != key
    requires forall i :: 0 <= i < |s| ==> EntryKey(s[i]) != key
    ensures forall i :: 0 <= i < |InsertByCount(x, s)| ==> EntryKey(InsertByCount(x, s)[i]) != key
  {
    if s != [] && s[0].count > x.count {
      InsertAvoids(x, s[1..], key);
      assert InsertByCount(x, s) == [s[0]] + InsertByCount(x, s[1..]);
    }
  }

  /** A head whose key the tail lacks keeps distinct keys distinct. */
  lemma ConsDistinctKeys(h: TagCount, t: seq<TagCount>)
    requires DistinctKeys(t)
    requires forall i :: 0 <= i < |t| ==> EntryKey(t[i]) != EntryKey(h)
    ensures DistinctKeys([h] + t)
  {
    var r := [h] + t;
    forall i, j | 0 <= i < j < |r| ensures EntryKey(r[i]) != EntryKey(r[j]) {
      assert r[j] == t[j - 1];
      if i > 0 {
        assert r[i] == t[i - 1];
      }
    }
  }

  lemma {:induction false} InsertDistinct(x: TagCount, s: seq<TagCount>)
    requires DistinctKeys(s)
    requires forall i :: 0 <= i < |s| ==> EntryKey(s[i]) != EntryKey(x)
    ensures DistinctKeys(InsertByCount(x, s))
  {
    if s == [] || s[0].count <= x.count {
      ConsDistinctKeys(x, s);
    } else {
      var tail := s[1..];
      assert DistinctKeys(tail) by {
        forall i, j | 0 <= i < j < |tail| ensures EntryKey(tail[i]) != EntryKey(tail[j]) {
          assert tail[i] == s[i + 1] && tail[j] == s[j + 1];
        }
      }
      assert forall i :: 0 <= i < |tail| ==> EntryKey(tail[i]) != EntryKey(s[0]) by {
        forall i | 0 <= i < |tail| ensures EntryKey(tail[i]) != EntryKey(s[0]) {
          assert tail[i] == s[i + 1];
        }
      }
      InsertDistinct(x, tail);
      InsertAvoids(x, tail, EntryKey(s[0]));
      ConsDistinctKeys(s[0], InsertByCount(x, tail));
    }
  }

  /** `.sort((a, b) => b.count - a.count)`, a stable sort: a permutation of
      its input in non-increasing count order. */
  function SortByCount(s: seq<TagCount>): (r: seq<TagCount>)
    ensures multiset(r) == multiset(s)
    ensures SumCounts(r) == SumCounts(s)
    ensures SortedByCount(r)
  {
    if s == [] then []
    else
      var rest := SortByCount(s[1..]);
      assert s == [s[0]] + s[1..];
      InsertSorted(s[0], rest);
      InsertByCount(s[0], rest)
  }

  /** Sorting entries with distinct keys keeps them distinct. */
  lemma {:induction false} SortDistinct(s: seq<TagCount>)
    requires DistinctKeys(s)
    ensures DistinctKeys(SortByCount(s))
  {
    if s != [] {
      var rest := SortByCount(s[1..]);
      assert s == [s[0]] + s[1..];
      SortDistinct(s[1..]);
      forall i | 0 <= i < |rest| ensures EntryKey(rest[i]) != EntryKey(s[0]) {
        assert rest[i] in multiset(s[1..]);
        var w :| 0 <= w < |s[1..]| && s[1..][w] == rest[i];
        assert s[w + 1] == rest[i];
      }
      InsertDistinct(s[0], rest);
    }
  }

  /** Every entry of a rearrangement is an entry of the original. */
  lemma PermutedEntry(r: seq<TagCount>, counts: seq<TagCount>, i: nat)
    requires multiset(r) == multiset(counts) && i < |r|
    ensures exists w :: 0 <= w < |counts| && counts[w] == r[i]
  {
    assert r[i] in multiset(counts);
  }

  /** Per-entry facts survive a rearrangement of the entries. */
  lemma {:induction false} PermutedEntryFacts(tags: seq<Tag>, counts: seq<TagCount>, r: seq<TagCount>)
    requires CountsMatch(tags, counts) && FirstOccurrences(tags, counts)
    requires multiset(r) == multiset(counts)
    ensures CountsMatch(tags, r) && FirstOccurrences(tags, r)
  {
    forall i | 0 <= i < |r|
      ensures r[i].count == Occurrences(tags, EntryKey(r[i])) && FromFirstOccurrence(tags, r[i])
    {
      PermutedEntry(r, counts, i);
      var w :| 0 <= w < |counts| && counts[w] == r[i];
    }
  }

  /** Coverage survives a rearrangement of the entries. */
  lemma {:induction false} PermutedCovers(tags: seq<Tag>, counts: seq<TagCount>, r: seq<TagCount>)
    requires Covers(tags, counts)
    requires multiset(r) == multiset(counts)
    ensures Covers(tags, r)
  {
    forall m | 0 <= m < |tags| ensures Any(r, EntryKeyIs(KeyOf(tags[m]))) {
      assert Any(counts, EntryKeyIs(KeyOf(tags[m])));
      var w :| 0 <= w < |counts| && EntryKeyIs(KeyOf(tags[m]))(counts[w]);
      PermutedEntry(counts, r, w);
      var v :| 0 <= v < |r| && r[v] == counts[w];
      assert EntryKeyIs(KeyOf(tags[m]))(r[v]);
    }
  }

  /** Sorting keeps every promise of the count. */
  lemma {:induction false} SortKeepsFacts(tags: seq<Tag>, counts: seq<TagCount>)
    requires TallyFacts(tags, counts)
    ensures TallyFacts(tags, SortByCount(counts)) && SortedByCount(SortByCount(counts))
  {
    var r := SortByCount(counts);
    SortDistinct(counts);
    PermutedEntryFacts(tags, counts, r);
    PermutedCovers(tags, counts, r);
  }

  /** Counting one more tag of the same list is one `AddTag` step. */
  lemma TallyStep(seen: seq<Tag>, tags: seq<Tag>, j: nat)
    requires j < |tags|
    ensures Tally(seen + tags[..j + 1]) == AddTag(Tally(seen + tags[..j]), tags[j])
  {
    assert (seen + tags[..j + 1])[..|seen| + j] == seen + tags[..j];
  }

  /** The tags of one more ticket follow those already visited. */
  lemma AllTagsStep(tickets: seq<Ticket>, i: nat)
    requires i < |tickets|
    ensures AllTags(tickets[..i + 1]) == AllTags(tickets[..i]) + tickets[i].tags.GetOr([])
  {
    assert tickets[..i + 1][..i] == tickets[..i];
  }

  /** The inner `forEach` of `getAllTags`: the tags of one ticket are counted
      into `tagCounts`, which then holds the count of everything visited. */
  method CountTicketTags(counts: seq<TagCount>, tags: seq<Tag>, ghost seen: seq<Tag>) returns (r: seq<TagCount>)
    requires counts == Tally(seen)
    ensures r == Tally(seen + tags)
  {
    r := counts;
    var j := 0;
    assert seen + tags[..0] == seen;
    while j < |tags|
      invariant 0 <= j <= |tags|
      invariant r == Tally(seen + tags[..j])
    {
      var t := tags[j];
      var k := FindIndex(r, EntryKeyIs(KeyOf(t)));
      AddTagInPlace(r, t, k);
      TallyStep(seen, tags, j);
      if k >= 0 {
        r := r[k := r[k].(count := r[k].count + 1)];
      } else {
        r := r + [TagCount(t.value, t.caption, t.color, 1)];
      }
      j := j + 1;
    }
    assert tags[..j] == tags;
  }

  /** The two branches of `AddTag`, as the loop performs them. */
  lemma AddTagInPlace(counts: seq<TagCount>, t: Tag, k: int)
    requires k == FindIndex(counts, EntryKeyIs(KeyOf(t)))
    ensures k >= 0 ==> AddTag(counts, t) == counts[k := counts[k].(count := counts[k].count + 1)]
    ensures k < 0 ==> AddTag(counts, t) == counts + [TagCount(t.value, t.caption, t.color, 1)]
  {
  }

  /** `getAllTags`, after the tickets were loaded: the `forEach` loops fill
      `tagCounts`, whose values are then sorted by count. */
  method GetAllTags(tickets: seq<Ticket>) returns (r: seq<TagCount>)
    ensures r == SortByCount(Tally(AllTags(tickets)))
  {
    var counts: seq<TagCount> := [];
    var i := 0;
    while i < |tickets|
      invariant 0 <= i <= |tickets|
      invariant counts == Tally(AllTags(tickets[..i]))
    {
      counts := CountTicketTags(counts, tickets[i].tags.GetOr([]), AllTags(tickets[..i]));
      AllTagsStep(tickets, i);
      i := i + 1;
    }
    assert tickets[..i] == tickets;
    r := SortByCount(counts);
  }

  /** What `getAllTags` returns: entries sorted by non-increasing count, one
      per distinct tag value, each counting that value's occurrences and
      carrying its first occurrence's label and colour, every value present,
      and the counts summing to the number of tag occurrences. */
  lemma AllTagsReport(tickets: seq<Ticket>)
    ensures var tags := AllTags(tickets);
      TallyFacts(tags, SortByCount(Tally(tags))) && SortedByCount(SortByCount(Tally(tags)))
  {
    TallyCorrect(AllTags(tickets));
    SortKeepsFacts(AllTags(tickets), Tally(AllTags(tickets)));
  }

  // ---------------------------------------------------------------------
  // removeTagFromCategory
  // ---------------------------------------------------------------------

  /** An `updateTicket(id, { tags })` request. */
  datatype TagUpdate = TagUpdate(ticketId: string, tags: seq<Tag>)

  function ValueIsNot(tagValue: string): Tag -> bool {
    (t: Tag) => t.value != Some(tagValue)
  }

  /** The request for one ticket: its id and its tags without those of the
      value. */
  function RemovalFor(tagValue: string): Ticket -> TagUpdate {
    (t: Ticket) => TagUpdate(t.id, Filter(t.tags.GetOr([]), ValueIsNot(tagValue)))
  }

  function HasTags(): Ticket -> bool {
    (t: Ticket) => t.tags.Some?
  }

  /** The requests for the category's tickets, in order: one per ticket that
      has a tag list. */
  function TagRemovals(tickets: seq<Ticket>, tagValue: string): (r: seq<TagUpdate>)
    ensures |r| <= |tickets|
  {
    if tickets == [] then []
    else
      var t := tickets[|tickets| - 1];
      TagRemovals(tickets[..|tickets| - 1], tagValue) + (if t.tags.Some? then [RemovalFor(tagValue)(t)] else [])
  }

  /** `removeTagFromCategory` once the category's tickets are loaded: the
      update requests it issues, in order. */
  method RemoveTagFromCategory(tickets: seq<Ticket>, tagValue: string) returns (updates: seq<TagUpdate>)
    ensures updates == TagRemovals(tickets, tagValue)
  {
    updates := [];
    var i := 0;
    while i < |tickets|
      invariant 0 <= i <= |tickets|
      invariant updates == TagRemovals(tickets[..i], tagValue)
    {
      var t := tickets[i];
      if t.tags.Some? {
        var kept := Filter(t.tags.value, ValueIsNot(tagValue));
        updates := updates + [TagUpdate(t.id, kept)];
      }
      assert tickets[..i + 1][..i] == tickets[..i];
      i := i + 1;
    }
    assert tickets[..i] == tickets;
  }

  /** The requests are exactly one per ticket with a tag list, in ticket
      order. */
  lemma {:induction false} RemovalsPerTaggedTicket(tickets: seq<Ticket>, tagValue: string)
    ensures TagRemovals(tickets, tagValue) == Map(Filter(tickets, HasTags()), RemovalFor(tagValue))
  {
    if tickets != [] {
      var init := tickets[..|tickets| - 1];
      var t := tickets[|tickets| - 1];
      RemovalsPerTaggedTicket(init, tagValue);
      assert tickets == init + [t];
      RequestsForOneMore(init, t, tagValue);
    }
  }

  /** One more ticket adds its request, if it has a tag list, at the end. */
  lemma RequestsForOneMore(init: seq<Ticket>, t: Ticket, tagValue: string)
    ensures Map(Filter(init + [t], HasTags()), RemovalFor(tagValue))
      == Map(Filter(init, HasTags()), RemovalFor(tagValue)) + (if t.tags.Some? then [RemovalFor(tagValue)(t)] else [])
  {
    var f := RemovalFor(tagValue);
    FilterConcat(init, [t], HasTags());
    var last := Filter([t], HasTags());
    assert last == if t.tags.Some? then [t] else [] by {
      assert [t][1..] == [];
    }
    MapConcat(Filter(init, HasTags()), last, f);
  }

  /** A ticket's request drops exactly the tags of that value and keeps the
      others in their order; asking again for the result changes nothing. */
  lemma RemovalKeepsOthers(t: Ticket, tagValue: string)
    requires t.tags.Some?
    ensures var u := RemovalFor(tagValue)(t);
      u.ticketId == t.id && Subseq(u.tags, t.tags.value)
      && (forall m :: 0 <= m < |u.tags| ==> u.tags[m].value != Some(tagValue))
      && (forall m :: 0 <= m < |t.tags.value| && t.tags.value[m].value != Some(tagValue) ==> t.tags.value[m] in u.tags)
      && Filter(u.tags, ValueIsNot(tagValue)) == u.tags
  {
    var u := RemovalFor(tagValue)(t);
    FilterSubseq(t.tags.value, ValueIsNot(tagValue));
    FilterKeepsAll(u.tags, ValueIsNot(tagValue));
  }
}
