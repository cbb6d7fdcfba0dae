/** Date annotations on a dashboard: the panel's list, kept in date order
    with at most one note per date, and its save and delete actions. */
module Annotations {
  import opened Wrappers
  import opened Text
  import opened Sequences

  datatype Annotation = Annotation(id: int, date: string, note: string)

  /** The characters `String.prototype.trim` removes: white space and line
      terminators. */
  predicate IsJsSpace(c: char) {
    || c == '\t' || c == '\n' || c == '\U{B}' || c == '\U{C}' || c == '\r' || c == ' '
    || c == '\U{A0}' || c == '\U{1680}' || ('\U{2000}' <= c <= '\U{200A}')
    || c == '\U{2028}' || c == '\U{2029}' || c == '\U{202F}' || c == '\U{205F}'
    || c == '\U{3000}' || c == '\U{FEFF}'
  }

  function TrimStart(s: string): (r: string)
    ensures |r| <= |s| && r == s[|s| - |r|..]
    ensures r == [] || !IsJsSpace(r[0])
  {
    if s != [] && IsJsSpace(s[0]) then TrimStart(s[1..]) else s
  }

  function TrimEnd(s: string): (r: string)
    ensures |r| <= |s| && r == s[..|r|]
    ensures r == [] || !IsJsSpace(r[|r| - 1])
  {
    if s != [] && IsJsSpace(s[|s| - 1]) then TrimEnd(s[..|s| - 1]) else s
  }

  /** `s.trim()`. */
  function Trim(s: string): string {
    TrimEnd(TrimStart(s))
  }

  predicate Blank(s: string) {
    forall i :: 0 <= i < |s| ==> IsJsSpace(s[i])
  }

  /** A string is blank exactly when its first character is white space and the rest is blank. */
  lemma BlankFirst(s: string)
    requires s != []
    ensures Blank(s) <==> IsJsSpace(s[0]) && Blank(s[1..])
  {
    if IsJsSpace(s[0]) && Blank(s[1..]) {
      forall i | 0 <= i < |s|
        ensures IsJsSpace(s[i])
      {
        if i > 0 { assert s[i] == s[1..][i - 1]; }
      }
    }
  }

  /** A string is blank exactly when its last character is white space and the rest is blank. */
  lemma BlankLast(s: string)
    requires s != []
    ensures Blank(s) <==> IsJsSpace(s[|s| - 1]) && Blank(s[..|s| - 1])
  {
    if IsJsSpace(s[|s| - 1]) && Blank(s[..|s| - 1]) {
      forall i | 0 <= i < |s|
        ensures IsJsSpace(s[i])
      {
        if i < |s| - 1 { assert s[i] == s[..|s| - 1][i]; }
      }
    }
  }

  lemma {:induction false} TrimStartBlank(s: string)
    ensures TrimStart(s) == [] <==> Blank(s)
  {
    if s != [] {
      BlankFirst(s);
      if IsJsSpace(s[0]) {
        TrimStartBlank(s[1..]);
      }
    }
  }

  lemma {:induction false} TrimEndBlank(s: string)
    ensures TrimEnd(s) == [] <==> Blank(s)
  {
    if s != [] {
      BlankLast(s);
      if IsJsSpace(s[|s| - 1]) {
        TrimEndBlank(s[..|s| - 1]);
      }
    }
  }

  /** A note trims to nothing exactly when it is all white space; otherwise
      the trimmed note starts and ends with a visible character. */
  lemma TrimmedNote(s: string)
    ensures Trim(s) == [] <==> Blank(s)
    ensures Trim(s) != [] ==> !IsJsSpace(Trim(s)[0]) && !IsJsSpace(Trim(s)[|Trim(s)| - 1])
  {
    TrimStartBlank(s);
    var t := TrimStart(s);
    TrimEndBlank(t);
    assert t != [] ==> !Blank(t);
    var r := TrimEnd(t);
    if r != [] {
      assert r[0] == t[0];
    }
  }

  /** Order by date, as `a.date.localeCompare(b.date)` orders ISO dates. */
  predicate DateLe(a: Annotation, b: Annotation) {
    LexLe(a.date, b.date)
  }

  lemma DateLeIsTotalPreorder()
    ensures TotalPreorder(DateLe)
  {
    forall a: Annotation, b: Annotation
      ensures DateLe(a, b) || DateLe(b, a)
    {
      LexLeTotal(a.date, b.date);
    }
    forall a: Annotation, b: Annotation, c: Annotation | DateLe(a, b) && DateLe(b, c)
      ensures DateLe(a, c)
    {
      LexLeTransitive(a.date, b.date, c.date);
    }
  }

  /** `list.filter(a => a.date !== day)`. */
  function RemoveDay(s: seq<Annotation>, day: string): (r: seq<Annotation>)
    ensures |r| <= |s|
    ensures forall a :: a in r <==> a in s && a.date != day
  {
    if s == [] then []
    else if s[0].date != day then [s[0]] + RemoveDay(s[1..], day)
    else RemoveDay(s[1..], day)
  }

  /** The annotations of `s` dated `day`, in their order. */
  function OnDay(s: seq<Annotation>, day: string): seq<Annotation> {
    if s == [] then []
    else if s[0].date == day then [s[0]] + OnDay(s[1..], day)
    else OnDay(s[1..], day)
  }

  /** At most one annotation per date. */
  ghost predicate OnePerDay(s: seq<Annotation>) {
    forall day :: |OnDay(s, day)| <= 1
  }

  /** The list after saving `saved` for `day`: whatever was on that day is
      dropped, `saved` is added, and the list is stably sorted by date. */
  function UpsertByDate(s: seq<Annotation>, day: string, saved: Annotation): (r: seq<Annotation>)
    ensures multiset(r) == multiset(RemoveDay(s, day)) + multiset{saved}
  {
    Sort(RemoveDay(s, day) + [saved], DateLe)
  }

  lemma {:induction false} OnDayAppend(a: seq<Annotation>, b: seq<Annotation>, day: string)
    ensures OnDay(a + b, day) == OnDay(a, day) + OnDay(b, day)
  {
    if a == [] {
      assert a + b == b;
    } else {
      assert (a + b)[1..] == a[1..] + b;
      OnDayAppend(a[1..], b, day);
    }
  }

  lemma {:induction false} OnDayRemoveDay(s: seq<Annotation>, d: string, day: string)
    ensures OnDay(RemoveDay(s, d), day) == if day == d then [] else OnDay(s, day)
  {
    if s != [] {
      OnDayRemoveDay(s[1..], d, day);
    }
  }

  /** Under the date order, being tied with `v` means sharing its date. */
  lemma {:induction false} TiedIsSameDay(s: seq<Annotation>, v: Annotation)
    ensures TiedWith(s, v, DateLe) == OnDay(s, v.date)
  {
    if s != [] {
      TiedIsSameDay(s[1..], v);
      if Tied(s[0], v, DateLe) {
        LexLeAntisymmetric(s[0].date, v.date);
      } else {
        LexLeTotal(s[0].date, v.date);
        if s[0].date == v.date {
          LexLeAntisymmetric(v.date, v.date);
        }
      }
    }
  }

  /** Saving keeps the list in date order; afterwards the saved annotation is
      the only one on its date, and every other date keeps its annotations in
      their order. */
  lemma UpsertByDateDays(s: seq<Annotation>, day: string, saved: Annotation, other: string)
    requires saved.date == day
    ensures Sorted(UpsertByDate(s, day, saved), DateLe)
    ensures OnDay(UpsertByDate(s, day, saved), day) == [saved]
    ensures other != day ==> OnDay(UpsertByDate(s, day, saved), other) == OnDay(s, other)
  {
    var pre := RemoveDay(s, day) + [saved];
    DateLeIsTotalPreorder();
    SortSorted(pre, DateLe);
    forall v: Annotation
      ensures OnDay(Sort(pre, DateLe), v.date) == OnDay(pre, v.date)
    {
      SortIsStable(pre, v, DateLe);
      TiedIsSameDay(Sort(pre, DateLe), v);
      TiedIsSameDay(pre, v);
    }
    OnDayAppend(RemoveDay(s, day), [saved], day);
    OnDayRemoveDay(s, day, day);
    assert OnDay(Sort(pre, DateLe), saved.date) == OnDay(pre, saved.date);
    assert [saved][1..] == [];
    var w := Annotation(0, other, "");
    assert OnDay(Sort(pre, DateLe), w.date) == OnDay(pre, w.date);
    OnDayAppend(RemoveDay(s, day), [saved], other);
    OnDayRemoveDay(s, day, other);
  }

  /** Saving keeps "one annotation per date". */
  lemma UpsertKeepsOnePerDay(s: seq<Annotation>, day: string, saved: Annotation)
    requires saved.date == day
    requires OnePerDay(s)
    ensures OnePerDay(UpsertByDate(s, day, saved))
  {
    forall other
      ensures |OnDay(UpsertByDate(s, day, saved), other)| <= 1
    {
      UpsertByDateDays(s, day, saved, other);
    }
  }

  /** `list.filter(a => a.id !== id)`. */
  function RemoveId(s: seq<Annotation>, id: int): (r: seq<Annotation>)
    ensures |r| <= |s|
    ensures forall a :: a in r <==> a in s && a.id != id
  {
    if s == [] then []
    else if s[0].id != id then [s[0]] + RemoveId(s[1..], id)
    else RemoveId(s[1..], id)
  }

  /** The head of a sorted list precedes everything after it. */
  lemma SortedHead(s: seq<Annotation>)
    requires Sorted(s, DateLe) && s != []
    ensures forall e :: e in s[1..] ==> DateLe(s[0], e)
  {
    forall e | e in s[1..]
      ensures DateLe(s[0], e)
    {
      var k :| 0 <= k < |s[1..]| && s[1..][k] == e;
      assert s[k + 1] == e;
    }
  }

  lemma ConsSorted(x: Annotation, rest: seq<Annotation>)
    requires Sorted(rest, DateLe)
    requires forall e :: e in rest ==> DateLe(x, e)
    ensures Sorted([x] + rest, DateLe)
  {
    var r := [x] + rest;
    forall i, j | 0 <= i < j < |r|
      ensures DateLe(r[i], r[j])
    {
      if i == 0 {
        assert r[j] == rest[j - 1];
      } else {
        assert r[i] == rest[i - 1] && r[j] == rest[j - 1];
      }
    }
  }

  /** Deleting keeps the remaining annotations in date order. */
  lemma {:induction false} RemoveIdKeepsOrder(s: seq<Annotation>, id: int)
    requires Sorted(s, DateLe)
    ensures Sorted(RemoveId(s, id), DateLe)
  {
    if s != [] {
      assert Sorted(s[1..], DateLe);
      RemoveIdKeepsOrder(s[1..], id);
      var rest := RemoveId(s[1..], id);
      if s[0].id != id {
        SortedHead(s);
        ConsSorted(s[0], rest);
      }
    }
  }

  /** The annotation panel: the loaded list and the two form fields. */
  class AnnotationPanel {
    var annotations: seq<Annotation>
    var newDate: string
    var newNote: string

    constructor ()
      ensures annotations == [] && newDate == "" && newNote == ""
    {
      annotations := [];
      newDate := "";
      newNote := "";
    }

    /** `saveAnnotation`. Nothing is sent while the date is empty or the note
        blank. `server` answers the request (date, trimmed note) with the
        stored annotation or an error; on success the list is upserted by the
        form's date and the form is cleared, on error nothing changes. */
    method Save(server: (string, string) -> Result<Annotation, string>)
      modifies this
      ensures old(newDate) == "" || Trim(old(newNote)) == "" ==> unchanged(this)
      ensures old(newDate) != "" && Trim(old(newNote)) != "" ==>
        var response := server(old(newDate), Trim(old(newNote)));
        if response.Success? then
          annotations == UpsertByDate(old(annotations), old(newDate), response.value) && newDate == "" && newNote == ""
        else unchanged(this)
    {
      if newDate == "" || Trim(newNote) == "" {
        return;
      }
      var response := server(newDate, Trim(newNote));
      if response.Success? {
        annotations := UpsertByDate(annotations, newDate, response.value);
        newNote := "";
        newDate := "";
      }
    }

    /** `deleteAnnotation`: the annotation with that id leaves the list,
        whatever the server answered. */
    method Delete(id: int)
      modifies this
      ensures annotations == RemoveId(old(annotations), id)
      ensures newDate == old(newDate) && newNote == old(newNote)
    {
      annotations := RemoveId(annotations, id);
    }
  }
}
