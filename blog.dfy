/**
 * Blog posts, comments and recipes (blog/models.py). `slugify(title)` is
 * passed in as a parameter; instants are integers and "now" is a
 * parameter.
 */
module Blog {
  import opened Wrappers
  import Numeric
  import Text
  import Users

  // ---------------------------------------------------------------------
  // Posts

  datatype PostStatus = Draft | Published | Scheduled | Archived

  class BlogPost {
    var title: string
    var slug: string
    var excerpt: string
    var content: string
    var status: PostStatus
    var publishedAt: Option<int>
    var seoTitle: string
    var seoDescription: string

    constructor (title0: string, excerpt0: string, content0: string, status0: PostStatus)
      ensures title == title0 && excerpt == excerpt0 && content == content0 && status == status0
      ensures slug == "" && publishedAt == None && seoTitle == "" && seoDescription == ""
    {
      title, excerpt, content, status := title0, excerpt0, content0, status0;
      slug, publishedAt, seoTitle, seoDescription := "", None, "", "";
    }

    /** `is_published`: published, with a publication time that has arrived. */
    predicate IsPublished(now: int)
      reads this
    {
      status == Published && publishedAt.Some? && publishedAt.value <= now
    }

    /** Nothing left for `save` to fill in, given what `slugify(title)` returns. */
    predicate Settled(titleSlug: string)
      reads this
    {
      (slug != "" || titleSlug == "")
      && (seoTitle != "" || Text.Truncate(title, 60) == "")
      && (seoDescription != "" || Text.Truncate(excerpt, 160) == "")
      && (status != Published || publishedAt.Some?)
    }

    /**
     * `save`: fills an empty slug from the title, stamps a published post
     * that has no publication time with `now` (an existing time is never
     * overwritten), and fills empty SEO fields with the title's first 60
     * and the excerpt's first 160 characters. A saved post is settled, so
     * saving it again changes nothing.
     */
    method Save(now: int, titleSlug: string)
      modifies this
      ensures slug == if old(slug) == "" then titleSlug else old(slug)
      ensures old(publishedAt).Some? ==> publishedAt == old(publishedAt)
      ensures old(publishedAt).None? ==> publishedAt == if status == Published then Some(now) else None
      ensures seoTitle == if old(seoTitle) == "" then Text.Truncate(title, 60) else old(seoTitle)
      ensures seoDescription == if old(seoDescription) == "" then Text.Truncate(excerpt, 160) else old(seoDescription)
      ensures |seoTitle| <= 60 || seoTitle == old(seoTitle)
      ensures |seoDescription| <= 160 || seoDescription == old(seoDescription)
      ensures title == old(title) && excerpt == old(excerpt) && content == old(content) && status == old(status)
      ensures Settled(titleSlug)
      ensures old(Settled(titleSlug)) ==> unchanged(this)
      ensures old(status == Published && publishedAt.None?) ==> IsPublished(now)
    {
      if slug == "" {
        slug := titleSlug;
      }
      if status == Published && publishedAt.None? {
        publishedAt := Some(now);
      }
      if seoTitle == "" {
        seoTitle := Text.Truncate(title, 60);
      }
      if seoDescription == "" {
        seoDescription := Text.Truncate(excerpt, 160);
      }
    }
  }

  /** `reading_time` for a given word count: `max(1, round(words / 200))`. */
  function ReadingMinutes(words: nat): (r: int)
  {
    Numeric.Max(1, Numeric.RoundHalfEven(words as real / 200.0))
  }

  /** `reading_time`: the words are those `content.split()` finds. */
  function ReadingTime(content: string): (r: int)
  {
    ReadingMinutes(|Text.Words(content)|)
  }

  /**
   * Reading time is at least one minute, within half a minute of the word
   * count over 200 from 100 words on, and rounds ties to the even minute
   * (500 words read in 2 minutes, 300 in 2, 100 in 1).
   */
  lemma ReadingMinutesProperties(words: nat)
    ensures ReadingMinutes(words) >= 1
    ensures words >= 100 ==>
      words as real / 200.0 - 0.5 <= ReadingMinutes(words) as real <= words as real / 200.0 + 0.5
    ensures ReadingMinutes(500) == 2 && ReadingMinutes(300) == 2 && ReadingMinutes(100) == 1
  {
    var x := words as real / 200.0;
    var r := Numeric.RoundHalfEven(x);
    if words >= 100 {
      assert r >= 0;
    }
    assert (500 as real / 200.0).Floor == 2;
    assert (300 as real / 200.0).Floor == 1;
    assert (100 as real / 200.0).Floor == 0;
  }

  /** Any text takes at least a minute, and text without words exactly one. */
  lemma ReadingTimeOfText(content: string)
    ensures Text.AllSpace(content) ==> ReadingTime(content) == 1
    ensures ReadingTime(content) >= 1
  {
    Text.WordsEmpty(content);
    ReadingMinutesProperties(|Text.Words(content)|);
    if Text.AllSpace(content) {
      assert (0 as real / 200.0).Floor == 0;
    }
  }

  // ---------------------------------------------------------------------
  // Comments

  datatype CommentStatus = Pending | Approved | Rejected | Spam

  class BlogComment {
    var author: Option<Users.User>
    var authorName: string
    var authorEmail: string
    var status: CommentStatus

    constructor (author0: Option<Users.User>, name0: string, email0: string)
      ensures author == author0 && authorName == name0 && authorEmail == email0 && status == Pending
    {
      author, authorName, authorEmail, status := author0, name0, email0, Pending;
    }

    /**
     * `save`: with a signed-in author, an empty name becomes the author's
     * full name and an empty email the author's email; a name or email
     * already given, or an anonymous comment, is kept.
     */
    method Save()
      modifies this
      ensures authorName == if author.Some? && old(authorName) == "" then Users.FullName(author.value) else old(authorName)
      ensures authorEmail == if author.Some? && old(authorEmail) == "" then author.value.email else old(authorEmail)
      ensures author == old(author) && status == old(status)
    {
      if author.Some? && authorName == "" {
        authorName := Users.FullName(author.value);
      }
      if author.Some? && authorEmail == "" {
        authorEmail := author.value.email;
      }
    }

    /** `approve`: from any status, then `save`, which may fill the author fields. */
    method Approve()
      modifies this
      ensures status == Approved
      ensures authorName == if author.Some? && old(authorName) == "" then Users.FullName(author.value) else old(authorName)
      ensures authorEmail == if author.Some? && old(authorEmail) == "" then author.value.email else old(authorEmail)
      ensures author == old(author)
    {
      status := Approved;
      Save();
    }

    /** `reject`: from any status, then `save`, which may fill the author fields. */
    method Reject()
      modifies this
      ensures status == Rejected
      ensures authorName == if author.Some? && old(authorName) == "" then Users.FullName(author.value) else old(authorName)
      ensures authorEmail == if author.Some? && old(authorEmail) == "" then author.value.email else old(authorEmail)
      ensures author == old(author)
    {
      status := Rejected;
      Save();
    }
  }

  // ---------------------------------------------------------------------
  // Recipes

  class Recipe {
    var slug: string
    var prepTime: nat
    var cookTime: Option<nat>
    var totalTime: Option<nat>

    constructor (prep: nat, cook: Option<nat>, total: Option<nat>)
      ensures slug == "" && prepTime == prep && cookTime == cook && totalTime == total
    {
      slug, prepTime, cookTime, totalTime := "", prep, cook, total;
    }

    /** `if not self.total_time`: none and 0 both count as not provided. */
    predicate TotalGiven()
      reads this
    {
      totalTime.Some? && totalTime.value != 0
    }

    /**
     * `save`: an empty slug comes from the title; a total time not provided
     * becomes preparation plus cooking time (none counting as 0), but only
     * when the preparation time is not 0. The total is then at least each
     * of its parts.
     */
    method Save(titleSlug: string)
      modifies this
      ensures slug == if old(slug) == "" then titleSlug else old(slug)
      ensures prepTime == old(prepTime) && cookTime == old(cookTime)
      ensures old(TotalGiven()) || prepTime == 0 ==> totalTime == old(totalTime)
      ensures !old(TotalGiven()) && prepTime != 0 ==>
        && totalTime == Some(prepTime + cookTime.GetOr(0))
        && totalTime.value >= prepTime && totalTime.value >= cookTime.GetOr(0)
    {
      if slug == "" {
        slug := titleSlug;
      }
      if !TotalGiven() && prepTime != 0 {
        totalTime := Some(prepTime + cookTime.GetOr(0));
      }
    }
  }
}
