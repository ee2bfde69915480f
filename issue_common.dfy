/**
 * What the two issue event producers share: the TMDB title and poster they
 * put on every issue notification, the issue-type prefix of the event label,
 * the translated labels they use, and the "first comment" they quote.
 */
module IssueCommon {
  import opened Model
  import opened Markup

  /**
   * What a TMDB lookup returns that the producers use: the movie title or
   * show name, the release or first-air date ("" when absent) and the
   * poster path.
   */
  datatype TmdbTitle = TmdbTitle(name: string, date: string, posterPath: string)

  /** The TMDB movie and TV lookups, keyed by TMDB id; None is a failed lookup. */
  datatype Tmdb = Tmdb(movies: nat -> Option<TmdbTitle>, shows: nat -> Option<TmdbTitle>)

  /** The translated strings the producers put into payloads. */
  datatype Labels = Labels(
    issue: string,
    issueResolved: string,
    issueReopened: string,
    affectedSeason: string,
    affectedEpisode: string,
    newCommentOn: string)

  const PosterBase := "https://image.tmdb.org/t/p/w600_and_h900_bestv2"

  /** Movies are looked up as movies and everything else as TV shows. */
  function Lookup(tmdb: Tmdb, media: Media): Option<TmdbTitle> {
    if media.mediaType == Movie then tmdb.movies(media.tmdbId) else tmdb.shows(media.tmdbId)
  }

  /** The year part of a date: its first four characters, or all of a shorter one. */
  function Year(date: string): (r: string)
    ensures |r| == if |date| < 4 then |date| else 4
    ensures date[..|r|] == r
  {
    if |date| < 4 then date else date[..4]
  }

  /** "Name (YYYY)" when there is a date, else the bare name. */
  function Title(t: TmdbTitle): (r: string)
    ensures t.date == "" ==> r == t.name
    ensures t.date != "" ==> r == t.name + " (" + Year(t.date) + ")"
  {
    t.name + (if t.date != "" then " (" + Year(t.date) + ")" else "")
  }

  /** The title keeps the name in front and adds a suffix exactly when there is a date. */
  lemma TitleShape(t: TmdbTitle)
    ensures |Title(t)| >= |t.name| && Title(t)[..|t.name|] == t.name
    ensures Title(t) == t.name <==> t.date == ""
    ensures t.date != "" ==> |Title(t)| == |t.name| + 3 + |Year(t.date)| && Title(t)[|Title(t)| - 1] == ')'
  {
    assert Title(t)[..|t.name|] == t.name;
  }

  function Poster(t: TmdbTitle): string {
    PosterBase + t.posterPath
  }

  /** `IssueTypeName[t] + " "`, or nothing for OTHER; `typeName` stands for `IssueTypeName`. */
  function TypePrefix(t: IssueType, typeName: IssueType -> string): (r: string)
    ensures r == "" <==> t == Other
    ensures t != Other ==> r == typeName(t) + " "
  {
    if t != Other then typeName(t) + " " else ""
  }

  /**
   * The comment `sortBy(comments, 'id')` puts first: the lowest id, and of
   * comments sharing it, the earliest (the sort is stable).
   */
  function FirstIndex(cs: seq<Comment>): (i: nat)
    requires cs != []
    ensures i < |cs|
    ensures forall j :: 0 <= j < |cs| ==> cs[i].id <= cs[j].id
    ensures forall j :: 0 <= j < i ==> cs[j].id > cs[i].id
  {
    if |cs| == 1 then 0
    else
      var k := FirstIndex(cs[1..]) + 1;
      if cs[0].id <= cs[k].id then 0 else k
  }

  /** The first comment in id order; None when there are no comments. */
  function FirstComment(cs: seq<Comment>): (r: Option<Comment>)
    ensures r.None? <==> cs == []
    ensures r.Some? ==> r.value == cs[FirstIndex(cs)]
  {
    if cs == [] then None else Some(cs[FirstIndex(cs)])
  }

  /** The characterisation of the first comment pins it down: there is only one such position. */
  lemma FirstIndexUnique(cs: seq<Comment>, i: nat)
    requires i < |cs|
    requires forall j :: 0 <= j < |cs| ==> cs[i].id <= cs[j].id
    requires forall j :: 0 <= j < i ==> cs[j].id > cs[i].id
    ensures FirstIndex(cs) == i
  {
  }

  /** With distinct ids, the first comment is the one whose id is below every other. */
  lemma FirstCommentIsMinimum(cs: seq<Comment>, c: Comment)
    requires c in cs
    requires forall j, k :: 0 <= j < k < |cs| ==> cs[j].id != cs[k].id
    ensures FirstComment(cs) == Some(c) <==> forall d :: d in cs ==> c.id <= d.id
  {
    var i :| 0 <= i < |cs| && cs[i] == c;
    if forall d :: d in cs ==> c.id <= d.id {
      forall j | 0 <= j < i
        ensures cs[j].id > cs[i].id
      {
        assert cs[j] in cs;
      }
      forall j | 0 <= j < |cs|
        ensures cs[i].id <= cs[j].id
      {
        assert cs[j] in cs;
      }
      FirstIndexUnique(cs, i);
    }
  }

  /** `toString()` of a positive number. */
  function PositiveString(n: int): (r: string)
    requires n > 0
    ensures IsDigits(r) && DecimalValue(r) == n
    ensures |r| >= 1 && r[0] != '0'
  {
    DecimalRoundTrip(n);
    Decimal(n)
  }
}
