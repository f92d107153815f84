/** The question adapter of server/src/services/questions.js: topic aliasing,
    the Markdown image scanner, conversion of an ENEM API question into the
    internal form, the answer cache and what `fetchQuestion` does once its
    bounded attempt loop is over.

    The HTTP calls and the random year/offset choice are not modelled: each
    attempt is given as an abstract outcome, either a failure or the page of
    questions it obtained together with the random index used to pick one. */
module Questions {
  import opened Wrappers
  import opened JsString

  const MaxAttempts := 6
  const DefaultDiscipline := "matematica"
  const ApiUnavailable := "ENEM_API_UNAVAILABLE"

  /** `DISCIPLINE_MAP`: accepted topic names and the ENEM discipline slug each stands for. */
  const DisciplineMap: map<string, string> := map[
    "Math" := "matematica",
    "Mathematics" := "matematica",
    "matematica" := "matematica",
    "Linguagens" := "linguagens",
    "linguagens" := "linguagens",
    "Humanas" := "ciencias-humanas",
    "ciencias-humanas" := "ciencias-humanas",
    "Natureza" := "ciencias-natureza",
    "ciencias-natureza" := "ciencias-natureza"
  ]

  /** `topicToDiscipline`; the empty string stands for a missing topic. */
  function TopicToDiscipline(topic: string): (d: string)
    ensures d != ""
    ensures topic in DisciplineMap ==> d == DisciplineMap[topic]
    ensures topic !in DisciplineMap ==> d == (if topic == "" then DefaultDiscipline else topic)
  {
    if topic in DisciplineMap then DisciplineMap[topic]
    else if topic != "" then topic
    else DefaultDiscipline
  }

  /** Every slug is an alias of itself, so the mapping is idempotent. */
  lemma TopicToDisciplineIdempotent(topic: string)
    ensures TopicToDiscipline(TopicToDiscipline(topic)) == TopicToDiscipline(topic)
  {
    if topic in DisciplineMap {
      var d := DisciplineMap[topic];
      assert d in DisciplineMap && DisciplineMap[d] == d;
    }
  }

  lemma TopicToDisciplineExamples()
    ensures TopicToDiscipline("Math") == "matematica"
    ensures TopicToDiscipline("Humanas") == "ciencias-humanas"
    ensures TopicToDiscipline("") == "matematica"
    ensures TopicToDiscipline("quimica") == "quimica"
  {
    assert "quimica" !in DisciplineMap;
  }

  // ---------------------------------------------------------------------
  // Markdown image links: the global regular expression /!\[[^\]]*\]\(([^)]+)\)/g

  /** `md[i..k]` spells an image link `![alt](url)` whose `]` is at `j` and
      whose closing `)` is at `k`: alt holds no `]`, url is `md[j + 2..k]`,
      non-empty and free of `)`. */
  predicate ImageLinkSpan(md: string, i: nat, j: nat, k: nat) {
    && i + 2 <= j && j + 2 < k < |md|
    && md[i] == '!' && md[i + 1] == '['
    && ']' !in md[i + 2..j]
    && md[j] == ']' && md[j + 1] == '('
    && ')' !in md[j + 2..k]
    && md[k] == ')'
  }

  /** A match of the regular expression that starts at index `start`. */
  datatype ImageLink = ImageLink(start: nat, url: string, end: nat)

  /** The match of the expression anchored at `i`, if any. Both character
      classes are greedy and exclude their terminator, so the alt text ends
      at the first `]` and the url at the first `)` after it. A match spans
      at least the six characters of `![](u)`. */
  function LinkAt(md: string, i: nat): (r: Option<ImageLink>)
    ensures r.Some? ==> r.value.start == i && i + 6 <= r.value.end <= |md|
  {
    if i + 1 < |md| && md[i] == '!' && md[i + 1] == '[' then
      var j := IndexOfFrom(md, ']', i + 2);
      if j + 1 < |md| && md[j + 1] == '(' then
        var k := IndexOfFrom(md, ')', j + 2);
        if j + 2 < k < |md| then Some(ImageLink(i, md[j + 2..k], k + 1)) else None
      else None
    else None
  }

  /** `LinkAt` finds a match exactly where an image link is spelled. */
  lemma LinkAtSound(md: string, i: nat)
    requires LinkAt(md, i).Some?
    ensures exists j: nat, k: nat :: ImageLinkSpan(md, i, j, k) && LinkAt(md, i).value == ImageLink(i, md[j + 2..k], k + 1)
  {
    var j := IndexOfFrom(md, ']', i + 2);
    var k := IndexOfFrom(md, ')', j + 2);
    assert ImageLinkSpan(md, i, j, k);
  }

  lemma LinkAtComplete(md: string, i: nat, j: nat, k: nat)
    requires ImageLinkSpan(md, i, j, k)
    ensures LinkAt(md, i) == Some(ImageLink(i, md[j + 2..k], k + 1))
  {
    IndexOfFromIsFirst(md, ']', i + 2, j);
    IndexOfFromIsFirst(md, ')', j + 2, k);
  }

  lemma {:induction false} IndexOfFromIsFirst(s: string, c: char, from: nat, n: nat)
    requires from <= n < |s| && s[n] == c && forall p :: from <= p < n ==> s[p] != c
    ensures IndexOfFrom(s, c, from) == n
    decreases n - from
  {
    if from < n { IndexOfFromIsFirst(s, c, from + 1, n); }
  }

  /** What one `regex.exec(md)` call returns when `lastIndex` is `from`: the
      leftmost match starting at or after `from`. */
  function NextLink(md: string, from: nat): (r: Option<ImageLink>)
    ensures r.Some? ==> from <= r.value.start < r.value.end <= |md| && LinkAt(md, r.value.start) == r
    ensures r.Some? ==> forall p :: from <= p < r.value.start ==> LinkAt(md, p).None?
    ensures r.None? ==> forall p :: from <= p < |md| ==> LinkAt(md, p).None?
    decreases |md| - from
  {
    if from >= |md| then None
    else if LinkAt(md, from).Some? then LinkAt(md, from)
    else NextLink(md, from + 1)
  }

  /** The urls that successive `exec` calls collect from `lastIndex == from`
      on. The matches do not overlap and each spans at least six characters,
      so there are at most a sixth as many urls as characters scanned. */
  function ImageUrls(md: string, from: nat): (urls: seq<string>)
    ensures from >= |md| ==> urls == []
    ensures from <= |md| ==> 6 * |urls| <= |md| - from
    decreases |md| - from
  {
    match NextLink(md, from)
    case None => []
    case Some(l) => [l.url] + ImageUrls(md, l.end)
  }

  /** Every collected url is non-empty, free of `)`, and the url of an image
      link spelled in `md` at or after `from`. */
  lemma ImageUrlsSound(md: string, from: nat, n: nat)
    requires n < |ImageUrls(md, from)|
    ensures ImageUrls(md, from)[n] != "" && ')' !in ImageUrls(md, from)[n]
    ensures exists i: nat, j: nat, k: nat :: from <= i && ImageLinkSpan(md, i, j, k) && ImageUrls(md, from)[n] == md[j + 2..k]
  {
    var i, j, k := ImageUrlsSpelled(md, from, n);
    SpanUrl(md, i, j, k);
  }

  /** The url of a spelled link is non-empty and free of `)`. */
  lemma SpanUrl(md: string, i: nat, j: nat, k: nat)
    requires ImageLinkSpan(md, i, j, k)
    ensures md[j + 2..k] != "" && ')' !in md[j + 2..k]
  {
    var u := md[j + 2..k];
    assert forall p :: 0 <= p < |u| ==> u[p] == md[j + 2 + p];
  }

  /** The link one `exec` call returns is spelled in the text. */
  lemma NextLinkSpelled(md: string, from: nat) returns (j: nat, k: nat)
    requires NextLink(md, from).Some?
    ensures var l := NextLink(md, from).value;
      from <= l.start && ImageLinkSpan(md, l.start, j, k) && l.url == md[j + 2..k]
  {
    var l := NextLink(md, from).value;
    j := IndexOfFrom(md, ']', l.start + 2);
    k := IndexOfFrom(md, ')', j + 2);
    assert LinkAt(md, l.start) == Some(ImageLink(l.start, md[j + 2..k], k + 1));
  }

  /** One step of the collection: the url of the next link, then the urls
      after it. */
  lemma ImageUrlsStep(md: string, from: nat)
    requires NextLink(md, from).Some?
    ensures ImageUrls(md, from) == [NextLink(md, from).value.url] + ImageUrls(md, NextLink(md, from).value.end)
  {
  }

  /** The position of the link the `n`-th url was collected from. */
  lemma {:induction false} ImageUrlsSpelled(md: string, from: nat, n: nat) returns (i: nat, j: nat, k: nat)
    requires n < |ImageUrls(md, from)|
    ensures from <= i && ImageLinkSpan(md, i, j, k) && ImageUrls(md, from)[n] == md[j + 2..k]
    decreases |md| - from
  {
    var l := NextLink(md, from).value;
    ImageUrlsStep(md, from);
    if n == 0 {
      j, k := NextLinkSpelled(md, from);
      i := l.start;
    } else {
      i, j, k := ImageUrlsSpelled(md, l.end, n - 1);
    }
  }

  /** A text without the opening `![` holds no image link. */
  lemma NoImageWithoutBang(md: string, from: nat)
    requires forall p :: 0 <= p < |md| ==> md[p] != '!'
    ensures ImageUrls(md, from) == []
  {
    assert NextLink(md, from).None?;
  }

  /** `extractImageUrlsFromMarkdown`: the `while ((m = regex.exec(md)) !== null)` loop. */
  method ExtractImageUrlsFromMarkdown(md: string) returns (urls: seq<string>)
    ensures urls == ImageUrls(md, 0)
    ensures md == "" ==> urls == []
  {
    urls := [];
    if md == "" {
      return;
    }
    var m := NextLink(md, 0);
    var last := 0;
    while m.Some?
      invariant m == NextLink(md, last)
      invariant urls + ImageUrls(md, last) == ImageUrls(md, 0)
      decreases |md| - last
    {
      urls := urls + [m.value.url];
      last := m.value.end;
      m := NextLink(md, last);
    }
  }

  // ---------------------------------------------------------------------
  // Conversion of an ENEM API question

  /** One alternative as the API sends it; the empty string stands for a
      missing field. */
  datatype Alternative = Alternative(letter: string, text: string, file: string)

  /** An ENEM API question; the empty string stands for a missing field. */
  datatype RawQuestion = RawQuestion(
    year: nat, index: nat, discipline: string, context: string, title: string,
    alternativesIntroduction: string, alternatives: seq<Alternative>, correctAlternative: string)

  datatype QuestionOption = QuestionOption(letter: string, text: string, imageUrl: Option<string>)

  /** The internal question sent to the players. */
  datatype Question = Question(
    id: string, topic: string, text: string, context: string,
    imageUrls: seq<string>, options: seq<QuestionOption>)

  /** An `ANSWER_CACHE` entry. */
  datatype AnswerEntry = AnswerEntry(
    correctLetter: string, correctText: Option<string>, options: seq<QuestionOption>,
    discipline: string, year: Option<nat>)

  /** What `getAnswerDetail` returns for a cached question. */
  datatype AnswerDetail = AnswerDetail(correctLetter: string, correctText: Option<string>, options: seq<QuestionOption>)

  /** `enem-<year>-<index>`. */
  function QuestionId(year: nat, index: nat): string {
    "enem-" + NatToString(year) + "-" + NatToString(index)
  }

  /** Different exam positions get different ids, so cache entries of
      different ENEM questions never overwrite each other. */
  lemma QuestionIdInjective(y1: nat, i1: nat, y2: nat, i2: nat)
    requires QuestionId(y1, i1) == QuestionId(y2, i2)
    ensures y1 == y2 && i1 == i2
  {
    var a, b, c, d := NatToString(y1), NatToString(i1), NatToString(y2), NatToString(i2);
    var s := QuestionId(y1, i1)[5..];
    assert s == a + "-" + b && s == c + "-" + d;
    assert IndexOfFrom(s, '-', 0) == |a| by { IndexOfFromIsFirst(s, '-', 0, |a|); }
    assert IndexOfFrom(s, '-', 0) == |c| by { IndexOfFromIsFirst(s, '-', 0, |c|); }
    assert a == s[..|a|] && c == s[..|c|];
    assert b == s[|a| + 1..] && d == s[|c| + 1..];
    NatToStringInjective(y1, y2);
    NatToStringInjective(i1, i2);
  }

  /** `a.file || null`. */
  function ImageUrlOf(file: string): Option<string> {
    if file == "" then None else Some(file)
  }

  /** The options, in order, keeping each alternative's letter and text. */
  function OptionsOf(alts: seq<Alternative>): (opts: seq<QuestionOption>)
    ensures |opts| == |alts|
    ensures forall i :: 0 <= i < |alts| ==>
      opts[i].letter == alts[i].letter && opts[i].text == alts[i].text && opts[i].imageUrl == ImageUrlOf(alts[i].file)
  {
    seq(|alts|, i requires 0 <= i < |alts| => QuestionOption(alts[i].letter, alts[i].text, ImageUrlOf(alts[i].file)))
  }

  /** `alternatives.find(a => a.letter === letter)`: the index of the first
      alternative carrying `letter`. */
  function FindLetter(alts: seq<Alternative>, letter: string): (r: Option<nat>)
    ensures r.Some? ==> (r.value < |alts| && alts[r.value].letter == letter
      && forall j :: 0 <= j < r.value ==> alts[j].letter != letter)
    ensures r.None? ==> forall j :: 0 <= j < |alts| ==> alts[j].letter != letter
  {
    if alts == [] then None
    else if alts[0].letter == letter then Some(0)
    else match FindLetter(alts[1..], letter)
      case None => None
      case Some(j) => Some(j + 1)
  }

  /** `find(...)?.text || null`: the text of the first alternative with the
      correct letter, or none when there is no such alternative or its text
      is empty. */
  function CorrectText(alts: seq<Alternative>, letter: string): (t: Option<string>)
    ensures t.Some? ==> t.value != "" && exists i :: 0 <= i < |alts| && alts[i].letter == letter && alts[i].text == t.value
    ensures t.None? <==> FindLetter(alts, letter).None? || alts[FindLetter(alts, letter).value].text == ""
    ensures t.Some? ==> exists i :: (0 <= i < |alts| && alts[i].letter == letter && alts[i].text == t.value
      && forall j :: 0 <= j < i ==> alts[j].letter != letter)
  {
    match FindLetter(alts, letter)
    case None => None
    case Some(i) => if alts[i].text == "" then None else Some(alts[i].text)
  }

  /** The internal question `toInternalQuestion` returns: its id is the
      exam position; its topic is the question's own discipline, or the
      wanted one when the question has none, so never empty when the wanted
      discipline is not; its text is the introduction, else the title, else
      empty; and its options follow the alternatives one for one. */
  function QuestionOf(q: RawQuestion, disciplineWanted: string): (r: Question)
    ensures r.id == QuestionId(q.year, q.index)
    ensures disciplineWanted != "" ==> r.topic != ""
    ensures q.discipline == disciplineWanted ==> r.topic == disciplineWanted
    ensures r.topic == (if q.discipline != "" then q.discipline else disciplineWanted)
    ensures r.text == (if q.alternativesIntroduction != "" then q.alternativesIntroduction else q.title)
    ensures r.text == "" <==> q.alternativesIntroduction == "" && q.title == ""
    ensures r.options == OptionsOf(q.alternatives)
    ensures r.context == q.context && r.imageUrls == ImageUrls(q.context, 0)
    ensures |r.options| == |q.alternatives|
    ensures forall i :: 0 <= i < |r.options| ==> r.options[i].letter == q.alternatives[i].letter && r.options[i].text == q.alternatives[i].text
  {
    Question(
      QuestionId(q.year, q.index),
      if q.discipline != "" then q.discipline else disciplineWanted,
      if q.alternativesIntroduction != "" then q.alternativesIntroduction
      else if q.title != "" then q.title else "",
      q.context,
      ImageUrls(q.context, 0),
      OptionsOf(q.alternatives))
  }

  /** The cache entry `toInternalQuestion` writes: the options are those the
      players see, and a known correct text is the text of an option that
      carries the correct letter. */
  function EntryOf(q: RawQuestion): (e: AnswerEntry)
    ensures forall d :: e.options == QuestionOf(q, d).options
    ensures e.correctLetter == q.correctAlternative && e.discipline == q.discipline && e.year == Some(q.year)
    ensures e.correctText.Some? ==> exists i :: 0 <= i < |e.options| && e.options[i].letter == e.correctLetter && e.options[i].text == e.correctText.value
  {
    AnswerEntry(q.correctAlternative, CorrectText(q.alternatives, q.correctAlternative),
      OptionsOf(q.alternatives), q.discipline, Some(q.year))
  }

  /** `list.filter(q => q.discipline === discipline)`. */
  function FilterDiscipline(list: seq<RawQuestion>, discipline: string): (r: seq<RawQuestion>)
    ensures |r| <= |list|
    ensures forall i :: 0 <= i < |r| ==> r[i].discipline == discipline && r[i] in list
    ensures forall q :: q in list && q.discipline == discipline ==> q in r
  {
    if list == [] then []
    else
      var head := if list[0].discipline == discipline then [list[0]] else [];
      head + FilterDiscipline(list[1..], discipline)
  }

  /** The filter keeps the page's order: filtering a concatenation
      concatenates the filtered parts. */
  lemma {:induction false} FilterDisciplineKeepsOrder(a: seq<RawQuestion>, b: seq<RawQuestion>, discipline: string)
    ensures FilterDiscipline(a + b, discipline) == FilterDiscipline(a, discipline) + FilterDiscipline(b, discipline)
  {
    if a == [] {
      assert a + b == b;
    } else {
      var ab := a + b;
      assert ab[0] == a[0];
      assert ab[1..] == a[1..] + b;
      FilterDisciplineKeepsOrder(a[1..], b, discipline);
    }
  }

  /** The result of one attempt of `fetchQuestion`'s loop: the request
      failed (any exception is caught), or it yielded the page of questions
      and the random number used to pick one of the matching ones. */
  datatype AttemptOutcome = Failed | Page(questions: seq<RawQuestion>, pick: nat)

  /** The question the first successful attempt from `attempt` on picks. */
  function Chosen(attempts: seq<AttemptOutcome>, discipline: string, attempt: nat): (r: Option<RawQuestion>)
    requires attempt <= |attempts|
    ensures r.Some? ==> r.value.discipline == discipline
    decreases |attempts| - attempt
  {
    if attempt == |attempts| then None
    else match attempts[attempt]
      case Failed => Chosen(attempts, discipline, attempt + 1)
      case Page(list, pick) =>
        var filtered := FilterDiscipline(list, discipline);
        if filtered != [] then Some(filtered[pick % |filtered|])
        else Chosen(attempts, discipline, attempt + 1)
  }

  /** The attempt yielded a page holding a question of the discipline. */
  predicate Finds(a: AttemptOutcome, discipline: string) {
    a.Page? && FilterDiscipline(a.questions, discipline) != []
  }

  /** The question a finding attempt picks: `filtered[pick % filtered.length]`. */
  function PickOf(a: AttemptOutcome, discipline: string): RawQuestion
    requires Finds(a, discipline)
  {
    var filtered := FilterDiscipline(a.questions, discipline);
    filtered[a.pick % |filtered|]
  }

  /** Nothing is chosen exactly when no attempt from `attempt` on finds a
      question of the discipline. */
  lemma {:induction false} ChosenNoneIffNoFind(attempts: seq<AttemptOutcome>, discipline: string, attempt: nat)
    requires attempt <= |attempts|
    ensures Chosen(attempts, discipline, attempt).None? <==>
      forall a :: attempt <= a < |attempts| ==> !Finds(attempts[a], discipline)
    decreases |attempts| - attempt
  {
    if attempt < |attempts| && !Finds(attempts[attempt], discipline) {
      ChosenNoneIffNoFind(attempts, discipline, attempt + 1);
      assert Chosen(attempts, discipline, attempt) == Chosen(attempts, discipline, attempt + 1);
    }
  }

  /** The loop stops at the first attempt that finds a question: a choice is
      the pick of the first attempt from `attempt` on that finds one. */
  lemma {:induction false} ChosenIsFirstFind(attempts: seq<AttemptOutcome>, discipline: string, attempt: nat)
    requires attempt <= |attempts|
    ensures var r := Chosen(attempts, discipline, attempt);
      r.Some? ==> exists a :: (attempt <= a < |attempts| && Finds(attempts[a], discipline)
            && (forall e :: attempt <= e < a ==> !Finds(attempts[e], discipline))
            && r.value == PickOf(attempts[a], discipline))
    decreases |attempts| - attempt
  {
    if attempt < |attempts| {
      if Finds(attempts[attempt], discipline) {
        assert Chosen(attempts, discipline, attempt) == Some(PickOf(attempts[attempt], discipline));
      } else {
        ChosenIsFirstFind(attempts, discipline, attempt + 1);
        assert Chosen(attempts, discipline, attempt) == Chosen(attempts, discipline, attempt + 1);
        var r := Chosen(attempts, discipline, attempt);
        if r.Some? {
          var a :| attempt + 1 <= a < |attempts| && Finds(attempts[a], discipline)
            && (forall e :: attempt + 1 <= e < a ==> !Finds(attempts[e], discipline))
            && r.value == PickOf(attempts[a], discipline);
          assert forall e :: attempt <= e < a ==> !Finds(attempts[e], discipline);
        }
      }
    }
  }

  /** The local question used when every attempt failed and the battle is not strict. */
  const FallbackOptions: seq<QuestionOption> := [
    QuestionOption("A", "1", None),
    QuestionOption("B", "x", None),
    QuestionOption("C", "2x", None),
    QuestionOption("D", "x^2", None)
  ]

  function FallbackId(now: nat): string {
    "local-" + NatToString(now)
  }

  /** The local question: a fresh `local-<now>` id, the wanted discipline as
      topic, no context or images, and the four options A to D. */
  function FallbackQuestion(discipline: string, now: nat): (r: Question)
    ensures r.id == FallbackId(now) && r.topic == discipline && r.context == "" && r.imageUrls == []
    ensures r.text == "Qual a derivada de x^2?"
    ensures |r.options| == 4 && forall i :: 0 <= i < |r.options| ==> r.options[i].imageUrl.None?
    ensures r.options[0].letter == "A" && r.options[1].letter == "B"
    ensures r.options[2].letter == "C" && r.options[3].letter == "D"
    ensures r.options[0].text == "1" && r.options[1].text == "x"
    ensures r.options[2].text == "2x" && r.options[3].text == "x^2"
  {
    Question(FallbackId(now), discipline, "Qual a derivada de x^2?", "", [], FallbackOptions)
  }

  /** The key cached for the local question: it has the local question's
      options and a correct text, which is the text of the option carrying
      the correct letter. */
  function FallbackEntry(discipline: string): (e: AnswerEntry)
    ensures forall now :: e.options == FallbackQuestion(discipline, now).options
    ensures e.correctLetter == "C" && e.correctText == Some("2x") && e.discipline == discipline && e.year.None?
    ensures exists i :: 0 <= i < |e.options| && e.options[i].letter == e.correctLetter && e.options[i].text == e.correctText.value
  {
    assert FallbackOptions[2].letter == "C" && FallbackOptions[2].text == "2x";
    AnswerEntry("C", Some("2x"), FallbackOptions, discipline, None)
  }

  /** A fallback id never coincides with an ENEM question id. */
  lemma FallbackIdIsNotEnem(now: nat, year: nat, index: nat)
    ensures FallbackId(now) != QuestionId(year, index)
  {
    assert FallbackId(now)[0] == 'l' && QuestionId(year, index)[0] == 'e';
  }

  /** What `fetchQuestion` yields: the first question of the discipline any
      attempt finds; when none does, `ENEM_API_UNAVAILABLE` in strict mode and
      the local question otherwise. */
  function FetchOutcome(topic: string, strictApi: bool, attempts: seq<AttemptOutcome>, now: nat): (r: Result<Question, string>)
    ensures r.Failure? ==> strictApi && r.error == ApiUnavailable
    ensures r.Success? ==> r.value.topic == TopicToDiscipline(topic)
  {
    var d := TopicToDiscipline(topic);
    match Chosen(attempts, d, 0)
    case Some(q) => Success(QuestionOf(q, d))
    case None => if strictApi then Failure(ApiUnavailable) else Success(FallbackQuestion(d, now))
  }

  /** `ANSWER_CACHE` after `fetchQuestion`: the answer key of the returned
      question is stored under its id; a failed fetch stores nothing. */
  function CacheAfterFetch(cache: map<string, AnswerEntry>, topic: string, strictApi: bool,
                           attempts: seq<AttemptOutcome>, now: nat): (c: map<string, AnswerEntry>)
    ensures cache.Keys <= c.Keys
    ensures FetchOutcome(topic, strictApi, attempts, now).Failure? ==> c == cache
    ensures FetchOutcome(topic, strictApi, attempts, now).Success? ==>
      var q := FetchOutcome(topic, strictApi, attempts, now).value;
      q.id in c && c[q.id].options == q.options
  {
    var d := TopicToDiscipline(topic);
    match Chosen(attempts, d, 0)
    case Some(q) => cache[QuestionId(q.year, q.index) := EntryOf(q)]
    case None => if strictApi then cache else cache[FallbackId(now) := FallbackEntry(d)]
  }

  /** Only a strict fetch fails, and only when no attempt found a question of
      the discipline; a failed fetch caches nothing, and a successful one
      leaves every other cache entry untouched. */
  lemma FetchOutcomeProperties(cache: map<string, AnswerEntry>, topic: string, strictApi: bool,
                               attempts: seq<AttemptOutcome>, now: nat)
    ensures var d := TopicToDiscipline(topic);
      var r := FetchOutcome(topic, strictApi, attempts, now);
      var c := CacheAfterFetch(cache, topic, strictApi, attempts, now);
      && (r.Failure? <==> strictApi && forall a :: 0 <= a < |attempts| ==> !Finds(attempts[a], d))
      && (r.Failure? ==> c == cache)
      && (r.Success? ==> forall id :: id in cache && id != r.value.id ==> id in c && c[id] == cache[id])
  {
    ChosenNoneIffNoFind(attempts, TopicToDiscipline(topic), 0);
  }

  /** Which question a fetch returns: the pick of the first attempt that
      found a question of the discipline, or, when none did and the fetch is
      not strict, the local question. */
  lemma FetchOutcomeChoice(topic: string, strictApi: bool, attempts: seq<AttemptOutcome>, now: nat)
    ensures var d := TopicToDiscipline(topic);
      var r := FetchOutcome(topic, strictApi, attempts, now);
      && ((forall a :: 0 <= a < |attempts| ==> !Finds(attempts[a], d)) && !strictApi ==>
            r == Success(FallbackQuestion(d, now)))
      && (forall a :: (0 <= a < |attempts| && Finds(attempts[a], d)
            && (forall e :: 0 <= e < a ==> !Finds(attempts[e], d))) ==>
            r == Success(QuestionOf(PickOf(attempts[a], d), d)))
  {
    var d := TopicToDiscipline(topic);
    ChosenNoneIffNoFind(attempts, d, 0);
    forall a | 0 <= a < |attempts| && Finds(attempts[a], d) && forall e :: 0 <= e < a ==> !Finds(attempts[e], d)
      ensures Chosen(attempts, d, 0) == Some(PickOf(attempts[a], d))
    {
      FirstFindIsChosen(attempts, d, a);
    }
  }

  /** The first attempt that finds a question of the discipline is the one
      the loop picks from. */
  lemma FirstFindIsChosen(attempts: seq<AttemptOutcome>, d: string, a: nat)
    requires a < |attempts| && Finds(attempts[a], d)
    requires forall e :: 0 <= e < a ==> !Finds(attempts[e], d)
    ensures Chosen(attempts, d, 0) == Some(PickOf(attempts[a], d))
  {
    ChosenNoneIffNoFind(attempts, d, 0);
    ChosenIsFirstFind(attempts, d, 0);
    var r := Chosen(attempts, d, 0);
    var a' :| 0 <= a' < |attempts| && Finds(attempts[a'], d)
          && (forall e :: 0 <= e < a' ==> !Finds(attempts[e], d))
          && r.value == PickOf(attempts[a'], d);
    assert a' == a;
  }

  /** Which answer key a fetch caches: the key of the first attempt's pick
      under its exam id, or, when no attempt found a question and the fetch
      is not strict, answer `C` with text `2x` under the local id. */
  lemma CacheAfterFetchChoice(cache: map<string, AnswerEntry>, topic: string, strictApi: bool,
                              attempts: seq<AttemptOutcome>, now: nat)
    ensures var d := TopicToDiscipline(topic);
      var c := CacheAfterFetch(cache, topic, strictApi, attempts, now);
      && ((forall a :: 0 <= a < |attempts| ==> !Finds(attempts[a], d)) && !strictApi ==>
            c == cache[FallbackId(now) := FallbackEntry(d)])
      && (forall a :: (0 <= a < |attempts| && Finds(attempts[a], d)
            && (forall e :: 0 <= e < a ==> !Finds(attempts[e], d))) ==>
            var q := PickOf(attempts[a], d);
            c == cache[QuestionId(q.year, q.index) := EntryOf(q)])
  {
    var d := TopicToDiscipline(topic);
    ChosenNoneIffNoFind(attempts, d, 0);
    forall a | 0 <= a < |attempts| && Finds(attempts[a], d) && forall e :: 0 <= e < a ==> !Finds(attempts[e], d)
      ensures Chosen(attempts, d, 0) == Some(PickOf(attempts[a], d))
    {
      FirstFindIsChosen(attempts, d, a);
    }
  }

  /** The module-level service: `ANSWER_CACHE` and the functions around it. */
  /** The answer key `getAnswerDetail` reads from the cache `cache`. */
  function DetailIn(cache: map<string, AnswerEntry>, id: string): Option<AnswerDetail> {
    if id in cache then Some(AnswerDetail(cache[id].correctLetter, cache[id].correctText, cache[id].options))
    else None
  }

  class QuestionService {
    var cache: map<string, AnswerEntry>

    constructor ()
      ensures cache == map[]
    {
      cache := map[];
    }

    /** `getAnswerDetail`: none for an unknown id, otherwise the cached key. */
    function GetAnswerDetail(id: string): (r: Option<AnswerDetail>)
      reads this
      ensures r.None? <==> id !in cache
      ensures r.Some? ==> (r.value.correctLetter == cache[id].correctLetter
        && r.value.correctText == cache[id].correctText && r.value.options == cache[id].options)
    {
      DetailIn(cache, id)
    }

    /** `getCorrectAnswer`: the cached correct text, none when the id is
      unknown or no text is known. */
    function GetCorrectAnswer(id: string): (r: Option<string>)
      reads this
      ensures r.Some? ==> id in cache && cache[id].correctText == r && r.value != ""
      ensures id in cache && cache[id].correctText.Some? && cache[id].correctText.value != "" ==> r == cache[id].correctText
    {
      if id in cache && cache[id].correctText.Some? && cache[id].correctText.value != "" then cache[id].correctText
      else None
    }

    /** `toInternalQuestion`: converts and caches the answer key under the new id. */
    method ToInternalQuestion(q: RawQuestion, disciplineWanted: string) returns (r: Question)
      modifies this
      ensures r == QuestionOf(q, disciplineWanted)
      ensures cache == old(cache)[r.id := EntryOf(q)]
      ensures GetAnswerDetail(r.id) == Some(AnswerDetail(q.correctAlternative,
        CorrectText(q.alternatives, q.correctAlternative), r.options))
    {
      var id := QuestionId(q.year, q.index);
      var imageUrls := ExtractImageUrlsFromMarkdown(q.context);
      var options := OptionsOf(q.alternatives);
      var correctText := CorrectText(q.alternatives, q.correctAlternative);
      cache := cache[id := AnswerEntry(q.correctAlternative, correctText, options, q.discipline, Some(q.year))];
      var text := if q.alternativesIntroduction != "" then q.alternativesIntroduction
        else if q.title != "" then q.title else "";
      r := Question(id, if q.discipline != "" then q.discipline else disciplineWanted,
        text, q.context, imageUrls, options);
    }

    /** `fetchQuestion(topic, { strictApi })`: up to six attempts; the first
      that finds a question of the discipline wins. When all fail, strict
      mode throws `ENEM_API_UNAVAILABLE` and otherwise the local question
      is cached and returned. */
    method FetchQuestion(topic: string, strictApi: bool, attempts: seq<AttemptOutcome>, now: nat)
      returns (r: Result<Question, string>)
      requires |attempts| == MaxAttempts
      modifies this
      ensures r == FetchOutcome(topic, strictApi, attempts, now)
      ensures cache == CacheAfterFetch(old(cache), topic, strictApi, attempts, now)
    {
      var discipline := TopicToDiscipline(topic);
      var attempt := 0;
      while attempt < MaxAttempts
        invariant 0 <= attempt <= MaxAttempts
        invariant Chosen(attempts, discipline, 0) == Chosen(attempts, discipline, attempt)
        invariant cache == old(cache)
      {
        if attempts[attempt].Page? {
          var filtered := FilterDiscipline(attempts[attempt].questions, discipline);
          if filtered != [] {
            var chosen := filtered[attempts[attempt].pick % |filtered|];
            var question := ToInternalQuestion(chosen, discipline);
            return Success(question);
          }
        }
        attempt := attempt + 1;
      }
      if strictApi {
        return Failure(ApiUnavailable);
      }
      var fallback := FallbackQuestion(discipline, now);
      cache := cache[fallback.id := FallbackEntry(discipline)];
      r := Success(fallback);
    }
  }
}
