/** FileService (src/services/file_service.py): the word table read from an Excel workbook, with a
    one-minute cache of the table and of the lesson list, lookups by (grade, lesson) and upserts.

    The table is a sequence of rows (年级 grade, 课时 lesson, 词语 words). Grades and lessons are the
    `str()` of their cells; a words cell is missing (NaN), a string, or some other value. */
module WordTable {
  import opened Wrappers
  import Text
  import Order

  const CacheTtl: int := 60

  datatype Cell = Null | Str(s: string) | NonText

  datatype Row = Row(grade: string, lesson: string, words: Cell)

  type Table = seq<Row>

  type Key = (string, string)

  datatype LessonInfo = LessonInfo(grade: string, lesson: string, wordCount: int)

  function KeyOf(r: Row): Key {
    (r.grade, r.lesson)
  }

  /** `[w.strip() for w in s.split(',')]`. */
  function Pieces(s: string): (r: seq<string>)
    ensures |r| >= 1
  {
    var parts := Text.Split(s, ',');
    seq(|parts|, i requires 0 <= i < |parts| => Text.Strip(parts[i]))
  }

  /** The pieces a words cell contributes; `dropna()` and the `isinstance(.., str)` test skip the rest. */
  function CellPieces(c: Cell): seq<string> {
    if c.Str? then Pieces(c.s) else []
  }

  /** `df['年级'].astype(str).str.strip()` and the same for 课时, applied to the whole table. */
  function StripKeys(t: Table): (r: Table)
    ensures |r| == |t|
    ensures forall i :: 0 <= i < |t| ==>
      r[i].grade == Text.Strip(t[i].grade) && r[i].lesson == Text.Strip(t[i].lesson) && r[i].words == t[i].words
  {
    seq(|t|, i requires 0 <= i < |t| => Row(Text.Strip(t[i].grade), Text.Strip(t[i].lesson), t[i].words))
  }

  lemma StripKeysIdempotent(t: Table)
    ensures StripKeys(StripKeys(t)) == StripKeys(t)
  {
    forall i | 0 <= i < |t| ensures StripKeys(StripKeys(t))[i] == StripKeys(t)[i] {
      Text.StripIdempotent(t[i].grade);
      Text.StripIdempotent(t[i].lesson);
    }
  }

  predicate Matches(r: Row, grade: string, lesson: string) {
    r.grade == grade && r.lesson == lesson
  }

  /** `mask.any()`. */
  predicate AnyMatch(t: Table, grade: string, lesson: string) {
    exists i :: 0 <= i < |t| && Matches(t[i], grade, lesson)
  }

  /** `df[(df['年级'] == grade) & (df['课时'] == lesson)]`: the matching rows in table order. */
  function MatchingRows(t: Table, grade: string, lesson: string): seq<Row>
    decreases |t|
  {
    if t == [] then []
    else MatchingRows(t[..|t| - 1], grade, lesson)
         + (if Matches(t[|t| - 1], grade, lesson) then [t[|t| - 1]] else [])
  }

  lemma {:induction false} MatchingRowsEmpty(t: Table, grade: string, lesson: string)
    ensures MatchingRows(t, grade, lesson) == [] <==> !AnyMatch(t, grade, lesson)
    decreases |t|
  {
    if t != [] {
      var init := t[..|t| - 1];
      MatchingRowsEmpty(init, grade, lesson);
      if AnyMatch(t, grade, lesson) && !Matches(t[|t| - 1], grade, lesson) {
        var i :| 0 <= i < |t| && Matches(t[i], grade, lesson);
        assert init[i] == t[i];
      }
      if AnyMatch(init, grade, lesson) {
        var i :| 0 <= i < |init| && Matches(init[i], grade, lesson);
        assert t[i] == init[i];
      }
    }
  }

  function Elements(s: seq<string>): set<string> {
    set w | w in s
  }

  /** The set `get_words` builds from some rows. */
  function WordSet(rows: seq<Row>): set<string>
    decreases |rows|
  {
    if rows == [] then {}
    else WordSet(rows[..|rows| - 1]) + Elements(CellPieces(rows[|rows| - 1].words))
  }

  /** The words of the rows of `t` with keys (`grade`, `lesson`). */
  function LessonWordSet(t: Table, grade: string, lesson: string): set<string>
    decreases |t|
  {
    if t == [] then {}
    else LessonWordSet(t[..|t| - 1], grade, lesson)
         + (if Matches(t[|t| - 1], grade, lesson) then Elements(CellPieces(t[|t| - 1].words)) else {})
  }

  lemma WordSetSnoc(rows: seq<Row>, r: Row)
    ensures WordSet(rows + [r]) == WordSet(rows) + Elements(CellPieces(r.words))
  {
    assert (rows + [r])[..|rows|] == rows;
  }

  /** Collecting the words of the filtered rows is collecting the words of the matching rows. */
  lemma {:induction false} MatchingWordSet(t: Table, grade: string, lesson: string)
    ensures WordSet(MatchingRows(t, grade, lesson)) == LessonWordSet(t, grade, lesson)
    decreases |t|
  {
    if t != [] {
      MatchingWordSet(t[..|t| - 1], grade, lesson);
      if Matches(t[|t| - 1], grade, lesson) {
        WordSetSnoc(MatchingRows(t[..|t| - 1], grade, lesson), t[|t| - 1]);
      } else {
        assert MatchingRows(t, grade, lesson) == MatchingRows(t[..|t| - 1], grade, lesson);
      }
    }
  }

  /** A word of the lesson (`grade`, `lesson`): a piece of the words cell of some row with those keys. */
  predicate InLesson(t: Table, grade: string, lesson: string, w: string) {
    exists i :: 0 <= i < |t| && Matches(t[i], grade, lesson) && w in CellPieces(t[i].words)
  }

  /** What `get_words(grade, lesson)` returns for a table it has read. */
  function WordsFor(t: Table, grade: string, lesson: string): (r: Option<seq<string>>)
    ensures r.None? <==> !AnyMatch(StripKeys(t), Text.Strip(grade), Text.Strip(lesson))
    ensures r.Some? ==> Order.Ascending(r.value, Text.StrLess)
  {
    var s := StripKeys(t);
    var g := Text.Strip(grade);
    var l := Text.Strip(lesson);
    var rows := MatchingRows(s, g, l);
    MatchingRowsEmpty(s, g, l);
    if rows == [] then None else Some(Text.SortedStrings(WordSet(rows)))
  }

  /** Every piece of a matching row is in the lesson's word set. */
  lemma {:induction false} LessonWordSetHas(t: Table, grade: string, lesson: string, i: int, w: string)
    requires 0 <= i < |t| && Matches(t[i], grade, lesson) && w in CellPieces(t[i].words)
    ensures w in LessonWordSet(t, grade, lesson)
    decreases |t|
  {
    if i < |t| - 1 {
      var init := t[..|t| - 1];
      assert init[i] == t[i];
      LessonWordSetHas(init, grade, lesson, i, w);
    }
  }

  /** Every word of the lesson's word set comes from a matching row. */
  lemma {:induction false} LessonWordSetFrom(t: Table, grade: string, lesson: string, w: string) returns (i: int)
    requires w in LessonWordSet(t, grade, lesson)
    ensures 0 <= i < |t| && Matches(t[i], grade, lesson) && w in CellPieces(t[i].words)
    decreases |t|
  {
    var init := t[..|t| - 1];
    if w in LessonWordSet(init, grade, lesson) {
      i := LessonWordSetFrom(init, grade, lesson, w);
      assert init[i] == t[i];
    } else {
      i := |t| - 1;
    }
  }

  lemma LessonWordSetMembers(t: Table, grade: string, lesson: string, w: string)
    ensures w in LessonWordSet(t, grade, lesson) <==> InLesson(t, grade, lesson, w)
  {
    if w in LessonWordSet(t, grade, lesson) {
      var i := LessonWordSetFrom(t, grade, lesson, w);
    }
    if InLesson(t, grade, lesson, w) {
      var i :| 0 <= i < |t| && Matches(t[i], grade, lesson) && w in CellPieces(t[i].words);
      LessonWordSetHas(t, grade, lesson, i, w);
    }
  }

  /** The words listed are exactly the stripped comma-separated pieces of the matching rows' text cells. */
  lemma WordsForMembers(t: Table, grade: string, lesson: string, w: string)
    requires WordsFor(t, grade, lesson).Some?
    ensures w in WordsFor(t, grade, lesson).value <==> InLesson(StripKeys(t), Text.Strip(grade), Text.Strip(lesson), w)
  {
    MatchingWordSet(StripKeys(t), Text.Strip(grade), Text.Strip(lesson));
    LessonWordSetMembers(StripKeys(t), Text.Strip(grade), Text.Strip(lesson), w);
  }

  lemma NoTextNoWords(t: Table, grade: string, lesson: string)
    requires forall i :: 0 <= i < |t| ==> CellPieces(t[i].words) == []
    ensures LessonWordSet(t, grade, lesson) == {}
  {
    forall w ensures w !in LessonWordSet(t, grade, lesson) {
      LessonWordSetMembers(t, grade, lesson, w);
    }
  }

  /** Matching rows whose words cells are all missing or not text give an empty list, not None,
      whatever the other lessons hold. */
  lemma NoTextGivesEmpty(t: Table, grade: string, lesson: string)
    requires AnyMatch(StripKeys(t), Text.Strip(grade), Text.Strip(lesson))
    requires forall i :: 0 <= i < |t| && Matches(StripKeys(t)[i], Text.Strip(grade), Text.Strip(lesson)) ==>
      !t[i].words.Str?
    ensures WordsFor(t, grade, lesson) == Some([])
  {
    var s := StripKeys(t);
    var g := Text.Strip(grade);
    var l := Text.Strip(lesson);
    forall w ensures w !in LessonWordSet(s, g, l) {
      LessonWordSetMembers(s, g, l, w);
    }
    MatchingWordSet(s, g, l);
  }

  /** `df.loc[mask, '词语'] = joined`: the matching rows get `joined` as their words cell. */
  function Overwritten(s: Table, g: string, l: string, joined: Cell): Table {
    seq(|s|, i requires 0 <= i < |s| => if Matches(s[i], g, l) then s[i].(words := joined) else s[i])
  }

  /** The table `add_words` writes back. */
  function Upserted(t: Table, grade: string, lesson: string, words: seq<string>): Table {
    var s := StripKeys(t);
    var g := Text.Strip(grade);
    var l := Text.Strip(lesson);
    var joined := Str(Text.Join(words, ','));
    if AnyMatch(s, g, l) then Overwritten(s, g, l, joined)
    else s + [Row(g, l, joined)]
  }

  /** An upsert changes only the matching rows' words, or appends exactly one row, and rewrites every
      grade and lesson stripped. */
  lemma UpsertedShape(t: Table, grade: string, lesson: string, words: seq<string>)
    ensures var u := Upserted(t, grade, lesson, words);
      var g := Text.Strip(grade);
      var l := Text.Strip(lesson);
      && |u| == (if AnyMatch(StripKeys(t), g, l) then |t| else |t| + 1)
      && (forall i :: 0 <= i < |t| ==>
            && u[i].grade == Text.Strip(t[i].grade) && u[i].lesson == Text.Strip(t[i].lesson)
            && u[i].words == (if Matches(u[i], g, l) then Str(Text.Join(words, ',')) else t[i].words))
      && (!AnyMatch(StripKeys(t), g, l) ==> u[|t|] == Row(g, l, Str(Text.Join(words, ','))))
  {
  }

  lemma OverwrittenRows(s: Table, g: string, l: string, c: Cell)
    requires AnyMatch(s, g, l)
    ensures var o := Overwritten(s, g, l, c);
      && AnyMatch(o, g, l)
      && (forall i :: 0 <= i < |o| && Matches(o[i], g, l) ==> o[i].words == c)
      && (StripKeys(s) == s ==> StripKeys(o) == o)
  {
    var o := Overwritten(s, g, l, c);
    var i :| 0 <= i < |s| && Matches(s[i], g, l);
    assert Matches(o[i], g, l);
    if StripKeys(s) == s {
      forall j | 0 <= j < |o| ensures StripKeys(o)[j] == o[j] {
        assert StripKeys(s)[j] == s[j];
      }
    }
  }

  lemma AppendedRows(s: Table, g: string, l: string, c: Cell)
    requires !AnyMatch(s, g, l)
    requires Text.IsStripped(g) && Text.IsStripped(l)
    ensures var o := s + [Row(g, l, c)];
      && AnyMatch(o, g, l)
      && (forall i :: 0 <= i < |o| && Matches(o[i], g, l) ==> o[i].words == c)
      && (StripKeys(s) == s ==> StripKeys(o) == o)
  {
    var o := s + [Row(g, l, c)];
    assert Matches(o[|s|], g, l);
    forall i | 0 <= i < |s| ensures o[i] == s[i] { }
    if StripKeys(s) == s {
      forall j | 0 <= j < |o| ensures StripKeys(o)[j] == o[j] {
        if j < |s| {
          assert StripKeys(s)[j] == s[j];
        }
      }
    }
  }

  /** After an upsert, the table has stripped keys and the lesson's rows all hold the joined list. */
  lemma UpsertedRows(t: Table, grade: string, lesson: string, words: seq<string>)
    ensures var u := Upserted(t, grade, lesson, words);
      var g := Text.Strip(grade);
      var l := Text.Strip(lesson);
      && StripKeys(u) == u
      && AnyMatch(u, g, l)
      && (forall i :: 0 <= i < |u| && Matches(u[i], g, l) ==> u[i].words == Str(Text.Join(words, ',')))
  {
    var s := StripKeys(t);
    StripKeysIdempotent(t);
    if AnyMatch(s, Text.Strip(grade), Text.Strip(lesson)) {
      OverwrittenRows(s, Text.Strip(grade), Text.Strip(lesson), Str(Text.Join(words, ',')));
    } else {
      AppendedRows(s, Text.Strip(grade), Text.Strip(lesson), Str(Text.Join(words, ',')));
    }
  }

  /** When every row of a lesson holds the same cell, the lesson's words are that cell's pieces. */
  lemma InLessonUniform(u: Table, g: string, l: string, c: Cell, w: string)
    requires AnyMatch(u, g, l)
    requires forall i :: 0 <= i < |u| && Matches(u[i], g, l) ==> u[i].words == c
    ensures InLesson(u, g, l, w) <==> w in CellPieces(c)
  {
    var i :| 0 <= i < |u| && Matches(u[i], g, l);
    assert u[i].words == c;
  }

  lemma PiecesOfJoin(words: seq<string>)
    requires |words| >= 1
    requires forall i :: 0 <= i < |words| ==> ',' !in words[i]
    ensures Pieces(Text.Join(words, ',')) == seq(|words|, i requires 0 <= i < |words| => Text.Strip(words[i]))
  {
    Text.SplitJoin(words, ',');
  }

  /** The word set of a lesson whose rows all hold the same cell is that cell's set of pieces. */
  lemma LessonSetUniform(u: Table, g: string, l: string, c: Cell)
    requires AnyMatch(u, g, l)
    requires forall i :: 0 <= i < |u| && Matches(u[i], g, l) ==> u[i].words == c
    ensures LessonWordSet(u, g, l) == Elements(CellPieces(c))
  {
    forall w ensures w in LessonWordSet(u, g, l) <==> w in Elements(CellPieces(c)) {
      LessonWordSetMembers(u, g, l, w);
      InLessonUniform(u, g, l, c, w);
    }
  }

  lemma StrippedElements(words: seq<string>)
    ensures Elements(seq(|words|, i requires 0 <= i < |words| => Text.Strip(words[i])))
         == set i | 0 <= i < |words| :: Text.Strip(words[i])
  {
    var pieces := seq(|words|, i requires 0 <= i < |words| => Text.Strip(words[i]));
    forall w | w in Elements(pieces) ensures w in set i | 0 <= i < |words| :: Text.Strip(words[i]) {
      var k :| 0 <= k < |pieces| && pieces[k] == w;
      assert w == Text.Strip(words[k]);
    }
    forall k | 0 <= k < |words| ensures Text.Strip(words[k]) in Elements(pieces) {
      assert pieces[k] == Text.Strip(words[k]);
    }
  }

  lemma JoinedWordSet(words: seq<string>)
    requires |words| >= 1
    requires forall i :: 0 <= i < |words| ==> ',' !in words[i]
    ensures Elements(Pieces(Text.Join(words, ','))) == set i | 0 <= i < |words| :: Text.Strip(words[i])
  {
    PiecesOfJoin(words);
    StrippedElements(words);
  }

  /** Table-level round trip: after an upsert of a non-empty list without commas, looking the lesson up
      gives the distinct stripped words in ascending order. */
  lemma UpsertThenLookup(t: Table, grade: string, lesson: string, words: seq<string>)
    requires |words| >= 1
    requires forall i :: 0 <= i < |words| ==> ',' !in words[i]
    ensures WordsFor(Upserted(t, grade, lesson, words), grade, lesson)
      == Some(Text.SortedStrings(set i | 0 <= i < |words| :: Text.Strip(words[i])))
  {
    var u := Upserted(t, grade, lesson, words);
    var g := Text.Strip(grade);
    var l := Text.Strip(lesson);
    UpsertedRows(t, grade, lesson, words);
    MatchingRowsEmpty(u, g, l);
    MatchingWordSet(u, g, l);
    LessonSetUniform(u, g, l, Str(Text.Join(words, ',')));
    JoinedWordSet(words);
  }

  /** Orders keys by grade, then lesson, as `groupby` sorts them. */
  predicate KeyLess(a: Key, b: Key) {
    Text.StrLess(a.0, b.0) || (a.0 == b.0 && Text.StrLess(a.1, b.1))
  }

  lemma KeyLessIsStrictTotalOrder()
    ensures Order.IsStrictTotalOrder(KeyLess)
  {
    Text.StrLessIsStrictTotalOrder();
  }

  function KeySet(t: Table): set<Key> {
    set i | 0 <= i < |t| :: KeyOf(t[i])
  }

  /** The distinct (grade, lesson) groups of `df.groupby(['年级', '课时'])`, in sorted order. */
  function GroupKeys(t: Table): (r: seq<Key>)
    ensures forall k :: k in r <==> k in KeySet(t)
    ensures |r| == |KeySet(t)|
    ensures Order.Ascending(r, KeyLess)
  {
    KeyLessIsStrictTotalOrder();
    Order.SortedSet(KeySet(t), KeyLess)
  }

  /** The `words` list `read_lessons` extends for one group: the pieces of its rows, in table order. */
  function GroupWords(t: Table, k: Key): seq<string>
    decreases |t|
  {
    if t == [] then []
    else GroupWords(t[..|t| - 1], k) + (if KeyOf(t[|t| - 1]) == k then CellPieces(t[|t| - 1].words) else [])
  }

  /** A group counts no words exactly when none of its words cells is text; each text cell counts at least one. */
  lemma {:induction false} GroupWordsEmptyIff(t: Table, k: Key)
    ensures GroupWords(t, k) == [] <==> forall i :: 0 <= i < |t| && KeyOf(t[i]) == k ==> !t[i].words.Str?
    decreases |t|
  {
    if t != [] {
      var init := t[..|t| - 1];
      GroupWordsEmptyIff(init, k);
      assert forall i :: 0 <= i < |init| ==> init[i] == t[i];
    }
  }

  /** The duplicates of a group count: a word written twice adds two. */
  lemma {:induction false} GroupWordsAppend(t: Table, r: Row)
    ensures GroupWords(t + [r], KeyOf(r)) == GroupWords(t, KeyOf(r)) + CellPieces(r.words)
    ensures |GroupWords(t + [r], KeyOf(r))| == |GroupWords(t, KeyOf(r))| + |CellPieces(r.words)|
  {
    assert (t + [r])[..|t|] == t;
  }

  /** The record `read_lessons` emits for the group `k`. */
  function LessonOf(t: Table, k: Key): LessonInfo {
    LessonInfo(Text.Strip(k.0), Text.Strip(k.1), |GroupWords(t, k)|)
  }

  /** The records for the groups `keys`, in that order. */
  function LessonsFrom(t: Table, keys: seq<Key>): (r: seq<LessonInfo>)
    ensures |r| == |keys|
  {
    seq(|keys|, i requires 0 <= i < |keys| => LessonOf(t, keys[i]))
  }

  /** What `read_lessons` builds from a table. */
  function LessonsOf(t: Table): (r: seq<LessonInfo>)
    ensures |r| == |GroupKeys(t)|
  {
    LessonsFrom(t, GroupKeys(t))
  }

  lemma KeyOfRowIsGrouped(t: Table, j: int) returns (i: int)
    requires 0 <= j < |t|
    ensures 0 <= i < |GroupKeys(t)| && GroupKeys(t)[i] == KeyOf(t[j])
  {
    var keys := GroupKeys(t);
    assert KeyOf(t[j]) in KeySet(t);
    i :| 0 <= i < |keys| && keys[i] == KeyOf(t[j]);
  }

  lemma GroupHasRow(t: Table, i: int) returns (j: int)
    requires 0 <= i < |GroupKeys(t)|
    ensures 0 <= j < |t| && KeyOf(t[j]) == GroupKeys(t)[i]
  {
    var keys := GroupKeys(t);
    assert keys[i] in KeySet(t);
    j :| 0 <= j < |t| && KeyOf(t[j]) == keys[i];
  }

  lemma LessonAt(t: Table, i: int)
    requires 0 <= i < |GroupKeys(t)|
    ensures LessonsOf(t)[i] == LessonOf(t, GroupKeys(t)[i])
  {
  }

  /** One record per distinct (grade, lesson) pair: every row's group has a record, and every record
      belongs to the group of some row. */
  lemma LessonsOfGroups(t: Table)
    ensures |LessonsOf(t)| == |KeySet(t)|
    ensures forall j :: 0 <= j < |t| ==>
      exists i :: 0 <= i < |LessonsOf(t)| && LessonsOf(t)[i] == LessonOf(t, KeyOf(t[j]))
    ensures forall i :: 0 <= i < |LessonsOf(t)| ==>
      exists j :: 0 <= j < |t| && LessonsOf(t)[i] == LessonOf(t, KeyOf(t[j]))
  {
    forall j | 0 <= j < |t|
      ensures exists i :: 0 <= i < |LessonsOf(t)| && LessonsOf(t)[i] == LessonOf(t, KeyOf(t[j]))
    {
      var i := KeyOfRowIsGrouped(t, j);
      LessonAt(t, i);
    }
    forall i | 0 <= i < |LessonsOf(t)|
      ensures exists j :: 0 <= j < |t| && LessonsOf(t)[i] == LessonOf(t, KeyOf(t[j]))
    {
      var j := GroupHasRow(t, i);
      LessonAt(t, i);
    }
  }

  /** The workbook file: whether it exists, its rows (None where pandas cannot read it), its
      modification time and whether it can be written. */
  class Workbook {
    var present: bool
    var rows: Option<Table>
    var mtime: int
    var writable: bool

    constructor (present: bool, rows: Option<Table>, mtime: int, writable: bool)
      ensures this.present == present && this.rows == rows && this.mtime == mtime && this.writable == writable
    {
      this.present := present;
      this.rows := rows;
      this.mtime := mtime;
      this.writable := writable;
    }
  }

  class FileService {
    const book: Workbook
    var dfCache: Option<Table>
    var dfCacheTime: int
    var lessonsCache: Option<seq<LessonInfo>>
    var lessonsCacheTime: int

    constructor (book: Workbook)
      ensures this.book == book
      ensures dfCache == None && dfCacheTime == 0 && lessonsCache == None && lessonsCacheTime == 0
    {
      this.book := book;
      dfCache := None;
      dfCacheTime := 0;
      lessonsCache := None;
      lessonsCacheTime := 0;
    }

    /** The cached table may be used: it exists, is younger than a minute, and the file has not changed since. */
    predicate DfCacheValid(now: int)
      reads this, book
    {
      dfCache.Some? && now - dfCacheTime < CacheTtl && book.mtime <= dfCacheTime
    }

    predicate LessonsCacheValid(now: int)
      reads this
    {
      lessonsCache.Some? && now - lessonsCacheTime < CacheTtl
    }

    /** The table `_read_excel` yields at `now`; None where `stat` or `read_excel` raises. */
    function Load(now: int): Option<Table>
      reads this, book
    {
      if !book.present then None
      else if DfCacheValid(now) then dfCache
      else book.rows
    }

    /** `_read_excel`. */
    method ReadExcel(now: int) returns (r: Option<Table>)
      modifies this
      ensures r == old(Load(now))
      ensures lessonsCache == old(lessonsCache) && lessonsCacheTime == old(lessonsCacheTime)
      ensures r.Some? && !old(DfCacheValid(now)) ==> dfCache == r && dfCacheTime == now
      ensures r.None? || old(DfCacheValid(now)) ==> dfCache == old(dfCache) && dfCacheTime == old(dfCacheTime)
    {
      if !book.present {
        return None;
      }
      if dfCache.Some? && now - dfCacheTime < CacheTtl && book.mtime <= dfCacheTime {
        return dfCache;
      }
      if book.rows.None? {
        return None;
      }
      dfCache := book.rows;
      dfCacheTime := now;
      r := book.rows;
    }

    /** The inner loop of `read_lessons`: the pieces of the text cells of group `k`, in table order. */
    static method CollectGroupWords(t: Table, k: Key) returns (words: seq<string>)
      ensures words == GroupWords(t, k)
    {
      words := [];
      var j := 0;
      while j < |t|
        invariant 0 <= j <= |t|
        invariant words == GroupWords(t[..j], k)
      {
        if KeyOf(t[j]) == k && t[j].words.Str? {
          words := words + Pieces(t[j].words.s);
        }
        assert t[..j + 1][..j] == t[..j];
        j := j + 1;
      }
      assert t[..j] == t;
    }

    /** The outer loop of `read_lessons`: one record per group, in the order `groupby` yields them. */
    static method BuildLessons(t: Table, keys: seq<Key>) returns (lessons: seq<LessonInfo>)
      ensures lessons == LessonsFrom(t, keys)
    {
      lessons := [];
      var i := 0;
      while i < |keys|
        invariant 0 <= i <= |keys|
        invariant |lessons| == i
        invariant forall m :: 0 <= m < i ==> lessons[m] == LessonOf(t, keys[m])
      {
        var words := CollectGroupWords(t, keys[i]);
        lessons := lessons + [LessonInfo(Text.Strip(keys[i].0), Text.Strip(keys[i].1), |words|)];
        i := i + 1;
      }
    }

    /** `read_lessons`. */
    method ReadLessons(now: int) returns (lessons: seq<LessonInfo>)
      modifies this
      ensures old(LessonsCacheValid(now)) ==>
        lessons == old(lessonsCache).value && lessonsCache == old(lessonsCache)
        && lessonsCacheTime == old(lessonsCacheTime) && dfCache == old(dfCache) && dfCacheTime == old(dfCacheTime)
      ensures !old(LessonsCacheValid(now)) && old(Load(now)).Some? ==>
        lessons == LessonsOf(old(Load(now)).value) && lessonsCache == Some(lessons) && lessonsCacheTime == now
        && dfCache == old(Load(now)) && dfCacheTime == (if old(DfCacheValid(now)) then old(dfCacheTime) else now)
      ensures !old(LessonsCacheValid(now)) && old(Load(now)).None? ==>
        lessons == (if old(lessonsCache).Some? then old(lessonsCache).value else [])
        && lessonsCache == old(lessonsCache) && lessonsCacheTime == old(lessonsCacheTime)
        && dfCache == old(dfCache) && dfCacheTime == old(dfCacheTime)
    {
      if lessonsCache.Some? && now - lessonsCacheTime < CacheTtl {
        return lessonsCache.value;
      }
      var loaded := ReadExcel(now);
      if loaded.None? {
        if lessonsCache.Some? {
          return lessonsCache.value;
        }
        return [];
      }
      var t := loaded.value;
      lessons := BuildLessons(t, GroupKeys(t));
      lessonsCache := Some(lessons);
      lessonsCacheTime := now;
    }

    /** The loop of `get_words`: the union of the pieces of the rows' text cells. */
    static method CollectWords(rows: seq<Row>) returns (words: set<string>)
      ensures words == WordSet(rows)
    {
      words := {};
      var i := 0;
      while i < |rows|
        invariant 0 <= i <= |rows|
        invariant words == WordSet(rows[..i])
      {
        var cell := rows[i].words;
        if cell.Str? {
          var ps := Pieces(cell.s);
          words := words + Elements(ps);
        }
        assert rows[..i + 1][..i] == rows[..i];
        i := i + 1;
      }
      assert rows[..i] == rows;
    }

    /** `get_words`. The key columns of the table it reads are stripped in place, so the cached
        table keeps the stripped keys. */
    method GetWords(grade: string, lesson: string, now: int) returns (r: Option<seq<string>>)
      modifies this
      ensures lessonsCache == old(lessonsCache) && lessonsCacheTime == old(lessonsCacheTime)
      ensures old(Load(now)).None? ==>
        r == None && dfCache == old(dfCache) && dfCacheTime == old(dfCacheTime)
      ensures old(Load(now)).Some? ==>
        && r == WordsFor(old(Load(now)).value, grade, lesson)
        && dfCache == Some(StripKeys(old(Load(now)).value))
        && dfCacheTime == (if old(DfCacheValid(now)) then old(dfCacheTime) else now)
    {
      var loaded := ReadExcel(now);
      if loaded.None? {
        return None;
      }
      var t := StripKeys(loaded.value);
      dfCache := Some(t);
      var g := Text.Strip(grade);
      var l := Text.Strip(lesson);
      var filtered := MatchingRows(t, g, l);
      if filtered == [] {
        return None;
      }
      var words := CollectWords(filtered);
      r := Some(Text.SortedStrings(words));
    }

    /** The assignment through the mask in `add_words`, row by row. */
    static method Overwrite(s: Table, g: string, l: string, joined: Cell) returns (t: Table)
      ensures t == Overwritten(s, g, l, joined)
    {
      t := s;
      var i := 0;
      while i < |t|
        invariant 0 <= i <= |t| && |t| == |s|
        invariant forall m :: 0 <= m < i ==> t[m] == (if Matches(s[m], g, l) then s[m].(words := joined) else s[m])
        invariant forall m :: i <= m < |t| ==> t[m] == s[m]
      {
        if Matches(t[i], g, l) {
          t := t[i := t[i].(words := joined)];
        }
        i := i + 1;
      }
    }

    /** `add_words`: reads the file afresh, upserts, and writes it back at time `now`. */
    method AddWords(grade: string, lesson: string, words: seq<string>, now: int) returns (ok: bool)
      modifies book
      ensures !old(book.present) || old(book.rows).None? ==>
        !ok && book.rows == old(book.rows) && book.mtime == old(book.mtime)
      ensures old(book.present) && old(book.rows).Some? ==>
        && ok == book.writable
        && (ok ==> book.rows == Some(Upserted(old(book.rows).value, grade, lesson, words)) && book.mtime == now)
        && (!ok ==> book.rows == old(book.rows) && book.mtime == old(book.mtime))
      ensures book.present == old(book.present) && book.writable == old(book.writable)
    {
      if !book.present || book.rows.None? {
        return false;
      }
      var t := StripKeys(book.rows.value);
      var g := Text.Strip(grade);
      var l := Text.Strip(lesson);
      var joined := Str(Text.Join(words, ','));
      if AnyMatch(t, g, l) {
        t := Overwrite(t, g, l, joined);
      } else {
        t := t + [Row(g, l, joined)];
      }
      if !book.writable {
        return false;
      }
      book.rows := Some(t);
      book.mtime := now;
      ok := true;
    }
  }

  /** `FileService(excel_path)`: raises where the file does not exist. */
  method Open(book: Workbook) returns (r: Outcome<FileService>)
    ensures !book.present ==> r.Throw?
    ensures book.present ==>
      r.Return? && fresh(r.value) && r.value.book == book && r.value.dfCache == None && r.value.lessonsCache == None
  {
    if !book.present {
      return Throw(Raised("FileNotFoundError"));
    }
    var s := new FileService(book);
    r := Return(s);
  }

  /** Writing a lesson and then reading it back, once the cached table is older than the write, gives
      the distinct stripped words in ascending order. */
  method AddThenGet(fs: FileService, grade: string, lesson: string, words: seq<string>, writeTime: int, readTime: int)
    returns (ok: bool, r: Option<seq<string>>)
    requires fs.book.present && fs.book.rows.Some? && fs.book.writable
    requires fs.dfCache.Some? ==> fs.dfCacheTime < writeTime
    requires |words| >= 1 && forall i :: 0 <= i < |words| ==> ',' !in words[i]
    modifies fs, fs.book
    ensures ok
    ensures r == Some(Text.SortedStrings(set i | 0 <= i < |words| :: Text.Strip(words[i])))
  {
    ok := fs.AddWords(grade, lesson, words, writeTime);
    r := fs.GetWords(grade, lesson, readTime);
    UpsertThenLookup(old(fs.book.rows).value, grade, lesson, words);
  }
}
