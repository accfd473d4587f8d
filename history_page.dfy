/** The history page: it loads the recent records once, scores each record's
    mood, cuts the calendar date out of its timestamp, and shows the records
    both as a mood chart and as a list, each in reverse of the order the
    server sent them. */
module HistoryPage {
  import opened Maybe
  import opened JournalSchema
  import opened JournalApi

  const LoadFailedError := "Failed to load journal history"

  // ---------------------------------------------------------------- mood lookup

  /** The score of each known mood. */
  const MoodScores: map<string, int> := map[
    "Happy" := 9, "Calm" := 8, "Hopeful" := 8, "Reflective" := 7, "Neutral" := 6,
    "Sad" := 4, "Anxious" := 4, "Stressed" := 3, "Angry" := 2]

  /** The score of any other mood, and of a record without one. */
  const DefaultScore := 5

  /** The chart's vertical axis runs from 1 to 10. */
  const ChartMin := 1
  const ChartMax := 10

  /** The badge classes of the moods that have their own colour. */
  const MoodColors: map<string, string> := map[
    "Happy" := "bg-yellow-100 text-yellow-800 border-yellow-200",
    "Calm" := "bg-green-100 text-green-800 border-green-200",
    "Anxious" := "bg-red-100 text-red-800 border-red-200",
    "Reflective" := "bg-purple-100 text-purple-800 border-purple-200",
    "Stressed" := "bg-orange-100 text-orange-800 border-orange-200"]

  /** The badge classes of every other mood. */
  const DefaultColor := "bg-gray-100 text-gray-800 border-gray-200"

  /** The members every object literal inherits from `Object.prototype`; each
      of them is a function or (for `__proto__`) an object, so truthy. */
  const InheritedMembers: set<string> := {
    "constructor", "toString", "toLocaleString", "valueOf", "hasOwnProperty",
    "isPrototypeOf", "propertyIsEnumerable", "__proto__",
    "__defineGetter__", "__defineSetter__", "__lookupGetter__", "__lookupSetter__"}

  /** What `table[key] || fallback` yields on an object literal: one of the
      literal's own values (or the fallback), or a member inherited from
      `Object.prototype`. */
  datatype Looked<T> = Own(value: T) | Inherited(name: string)

  /** `getMoodScore` as written: `moodScores[mood] || 5` on an object literal.
      A missing mood reads the key `"undefined"`, which is not in the table. */
  function MoodScoreAsWritten(mood: Option<string>): (r: Looked<int>)
    ensures mood.Some? && mood.value in InheritedMembers ==> r == Inherited(mood.value)
    ensures r.Own? ==> 2 <= r.value <= 9
  {
    if mood.None? then Own(DefaultScore)
    else if mood.value in MoodScores && MoodScores[mood.value] != 0 then Own(MoodScores[mood.value])
    else if mood.value in InheritedMembers then Inherited(mood.value)
    else Own(DefaultScore)
  }

  /** The mood score: the table's score for a known mood, 5 otherwise. It
      always lies inside the chart's axis. */
  function MoodScore(mood: Option<string>): (r: int)
    ensures mood.Some? && mood.value in MoodScores ==> r == MoodScores[mood.value]
    ensures !(mood.Some? && mood.value in MoodScores) ==> r == DefaultScore
    ensures 2 <= r <= 9
    ensures ChartMin <= r <= ChartMax
  {
    if mood.Some? && mood.value in MoodScores then MoodScores[mood.value] else DefaultScore
  }

  /** A record whose mood names an inherited member, such as `"constructor"`,
      is scored with that member, not with a number. */
  lemma InheritedMoodScore()
    ensures MoodScoreAsWritten(Some("constructor")) == Inherited("constructor")
    ensures MoodScoreAsWritten(Some("toString")).Inherited?
  {
  }

  /** On every other mood the lookup as written and the own-key lookup agree. */
  lemma MoodScoreAgrees(mood: Option<string>)
    requires mood.None? || mood.value !in InheritedMembers
    ensures MoodScoreAsWritten(mood) == Own(MoodScore(mood))
  {
  }

  /** `getMoodColor` as written: `colors[mood] || gray` on an object literal. */
  function MoodColorAsWritten(mood: Option<string>): (r: Looked<string>)
    ensures mood.Some? && mood.value in InheritedMembers ==> r == Inherited(mood.value)
    ensures r.Own? ==> r.value != ""
  {
    if mood.None? then Own(DefaultColor)
    else if mood.value in MoodColors && MoodColors[mood.value] != "" then Own(MoodColors[mood.value])
    else if mood.value in InheritedMembers then Inherited(mood.value)
    else Own(DefaultColor)
  }

  /** The badge classes: the five listed moods get their own, every other
      mood and a missing one the gray default. */
  function MoodColor(mood: Option<string>): (r: string)
    ensures mood.Some? && mood.value in MoodColors ==> r == MoodColors[mood.value]
    ensures !(mood.Some? && mood.value in MoodColors) ==> r == DefaultColor
    ensures r in MoodColors.Values || r == DefaultColor
  {
    if mood.Some? && mood.value in MoodColors then MoodColors[mood.value] else DefaultColor
  }

  /** A mood naming an inherited member gets a function for its classes. */
  lemma InheritedMoodColor()
    ensures MoodColorAsWritten(Some("constructor")) == Inherited("constructor")
  {
  }

  /** On every other mood the colour lookup as written and the own-key lookup
      agree. */
  lemma MoodColorAgrees(mood: Option<string>)
    requires mood.None? || mood.value !in InheritedMembers
    ensures MoodColorAsWritten(mood) == Own(MoodColor(mood))
  {
  }

  // ---------------------------------------------------------------- enrichment

  /** `s.split('T')[0]`: the text before the first `'T'`, or all of it. */
  function DatePart(s: string): (r: string)
    ensures |r| <= |s| && r == s[..|r|]
    ensures 'T' !in r
    ensures |r| < |s| ==> s[|r|] == 'T'
  {
    if s == [] || s[0] == 'T' then [] else [s[0]] + DatePart(s[1..])
  }

  /** A record as the page keeps it: the record as fetched, its mood score
      and its calendar date. */
  datatype Enriched = Enriched(entry: Entry, moodScore: int, date: string)

  /** The enrichment of the fetched records. `iso` is the text a timestamp is
      sent as (`Date` serialised to JSON). */
  function Enrich(items: seq<Entry>, iso: int -> string): (r: seq<Enriched>)
    ensures |r| == |items|
    ensures forall i :: 0 <= i < |r| ==> r[i].entry == items[i]
    ensures forall i :: 0 <= i < |r| ==> r[i].moodScore == MoodScore(items[i].mood)
    ensures forall i :: 0 <= i < |r| ==> r[i].date == DatePart(iso(items[i].createdAt))
  {
    seq(|items|, i requires 0 <= i < |items| => Enriched(items[i], MoodScore(items[i].mood), DatePart(iso(items[i].createdAt))))
  }

  /** The date of an ISO timestamp `yyyy-mm-ddThh:mm:ss.sssZ` is the part
      before its `'T'`. */
  lemma DateOfIsoTimestamp(day: string, time: string)
    requires 'T' !in day
    ensures DatePart(day + "T" + time) == day
  {
    var s := day + "T" + time;
    var r := DatePart(s);
    assert s[|day|] == 'T';
    assert r == s[..|day|];
  }

  // ---------------------------------------------------------------- ordering

  /** `[...xs].reverse()`: a reversed copy. */
  function Reverse<T>(xs: seq<T>): (r: seq<T>)
    ensures |r| == |xs|
    ensures forall i :: 0 <= i < |xs| ==> r[i] == xs[|xs| - 1 - i]
  {
    if xs == [] then [] else Reverse(xs[1..]) + [xs[0]]
  }

  /** A point on the mood chart: the score, and the date it is labelled with
      (the tooltip's full date). */
  datatype ChartPoint = ChartPoint(mood: int, fullDate: string)

  /** `chartData`: the records in reverse order, one point each. */
  function ChartData(entries: seq<Enriched>): (r: seq<ChartPoint>)
    ensures |r| == |entries|
    ensures forall i :: 0 <= i < |r| ==>
      r[i] == ChartPoint(entries[|entries| - 1 - i].moodScore, entries[|entries| - 1 - i].date)
  {
    var shown := Reverse(entries);
    seq(|shown|, i requires 0 <= i < |shown| => ChartPoint(shown[i].moodScore, shown[i].date))
  }

  /** The records as the server lists them are newest first, so the list and
      the chart built from their reverse run oldest to newest, and the chart's
      `i`-th point is the score and date of the `i`-th record shown. */
  lemma ChartRunsOldestToNewest(items: seq<Entry>, iso: int -> string)
    requires forall i, j :: 0 <= i < j < |items| ==> items[i].createdAt >= items[j].createdAt
    ensures var shown := Reverse(Enrich(items, iso));
      && |shown| == |items|
      && (forall i, j :: 0 <= i < j < |shown| ==> shown[i].entry.createdAt <= shown[j].entry.createdAt)
      && (forall i :: 0 <= i < |shown| ==> shown[i].entry == items[|items| - 1 - i])
    ensures var shown := Reverse(Enrich(items, iso));
      var chart := ChartData(Enrich(items, iso));
      forall i :: 0 <= i < |chart| ==>
        && chart[i] == ChartPoint(MoodScore(shown[i].entry.mood), DatePart(iso(shown[i].entry.createdAt)))
        && ChartMin <= chart[i].mood <= ChartMax
  {
    var e := Enrich(items, iso);
    var shown := Reverse(e);
    forall i, j | 0 <= i < j < |shown|
      ensures shown[i].entry.createdAt <= shown[j].entry.createdAt
    {
      assert shown[i] == e[|e| - 1 - i] && shown[j] == e[|e| - 1 - j];
    }
  }

  // ---------------------------------------------------------------- the view

  /** What the page's request produced: the `GET` reply, or a failure to
      reach the server or to read the body. */
  datatype HistoryReply = Answered(reply: ListReply) | NetworkFailed

  /** The history page's state. */
  class HistoryView {
    var entries: seq<Enriched>
    var isLoading: bool
    var error: Option<string>

    constructor ()
      ensures entries == [] && isLoading && error.None?
    {
      entries, isLoading, error := [], true, None;
    }

    /** `fetchEntries`: a listed reply replaces the records with their
        enrichment; a non-ok reply or a failed request sets the error and
        keeps the records; loading ends either way. */
    method Load(reply: HistoryReply, iso: int -> string)
      modifies this
      ensures !isLoading
      ensures reply.Answered? && reply.reply.Listed? ==>
        entries == Enrich(reply.reply.entries, iso) && error == old(error)
      ensures !(reply.Answered? && reply.reply.Listed?) ==>
        entries == old(entries) && error == Some(LoadFailedError)
    {
      if reply.Answered? && reply.reply.Listed? {
        entries := Enrich(reply.reply.entries, iso);
      } else {
        error := Some(LoadFailedError);
      }
      isLoading := false;
    }

    /** The records in the order the list shows them. */
    function Shown(): (r: seq<Enriched>)
      reads this
      ensures |r| == |entries|
      ensures forall i :: 0 <= i < |r| ==> r[i] == entries[|entries| - 1 - i]
    {
      Reverse(entries)
    }

    /** The points of the mood chart. */
    function Chart(): (r: seq<ChartPoint>)
      reads this
      ensures |r| == |entries|
      ensures forall i :: 0 <= i < |r| ==> r[i] == ChartPoint(Shown()[i].moodScore, Shown()[i].date)
    {
      ChartData(entries)
    }
  }
}
