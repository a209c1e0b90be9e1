/**
 * `collectPeopleWithApi`: for one query, the pages of person search
 * results from `startPage` on, never past page 5; the detail of each
 * person found is fetched and stored as a person record, one after the
 * other, until `limit` people are collected. Nothing is caught here: a
 * search or a detail that fails throws out of the pipeline.
 */
module People {
  import opened Wrappers
  import opened Params
  import opened Records
  import opened Backend

  /** The last search page the pipeline asks for. */
  const MAX_PERSON_PAGES := 5

  /** A person search, as a log records it. */
  predicate IsSearch(e: Event) {
    e.Sent? && e.request.ApiGet? && e.request.endpoint.SearchPerson? && e.request.params.PersonQuery?
  }

  /** A person detail request, as a log records it. */
  predicate IsLookup(e: Event) {
    e.Sent? && e.request.ApiGet? && e.request.endpoint.PersonDetailPath?
  }

  /** The person searches of a log, in order: the page asked for, and the reply. */
  function Searches(log: seq<Event>): seq<(int, Reply)> {
    if log == [] then []
    else
      var e := log[|log| - 1];
      Searches(log[..|log| - 1]) + if IsSearch(e) then [(e.request.params.page, e.reply)] else []
  }

  /** The person detail requests of a log, in order: the person's id, and the reply. */
  function Lookups(log: seq<Event>): seq<(int, Reply)> {
    if log == [] then []
    else
      var e := log[|log| - 1];
      Lookups(log[..|log| - 1]) + if IsLookup(e) then [(e.request.endpoint.id, e.reply)] else []
  }

  lemma LogAppendOne(log: seq<Event>, e: Event)
    ensures Searches(log + [e]) == Searches(log) + if IsSearch(e) then [(e.request.params.page, e.reply)] else []
    ensures Lookups(log + [e]) == Lookups(log) + if IsLookup(e) then [(e.request.endpoint.id, e.reply)] else []
  {
    assert (log + [e])[..|log + [e]| - 1] == log;
  }

  /** The ids of lookups. */
  function Ids(looked: seq<(int, Reply)>): (ids: seq<int>)
    ensures |ids| == |looked| && forall i | 0 <= i < |looked| :: ids[i] == looked[i].0
  {
    seq(|looked|, i requires 0 <= i < |looked| => looked[i].0)
  }

  /** Lookups that all answered. */
  predicate Answered(looked: seq<(int, Reply)>) {
    forall i | 0 <= i < |looked| :: looked[i].1.Json?
  }

  lemma AnsweredAppend(a: seq<(int, Reply)>, b: seq<(int, Reply)>)
    requires Answered(a) && Answered(b)
    ensures Answered(a + b)
  {
    assert forall i | |a| <= i < |a + b| :: (a + b)[i] == b[i - |a|];
  }

  /** Putting one answered lookup in front of the rest keeps the ids in the persons' order and the last lookup last. */
  lemma LookedCons(x: (int, Reply), rest: seq<(int, Reply)>, persons: seq<int>)
    requires persons != [] && x.0 == persons[0] && |rest| <= |persons| - 1
    requires Ids(rest) == persons[1..][..|rest|]
    ensures Ids([x] + rest) == persons[..1 + |rest|]
    ensures x.1.Json? && Answered(rest) ==> Answered([x] + rest)
    ensures rest != [] ==> ([x] + rest)[|rest|] == rest[|rest| - 1]
  {
    assert forall i | 1 <= i < 1 + |rest| :: ([x] + rest)[i] == rest[i - 1];
  }

  /** The person records that lookups give: one for each detail that answered, in order. */
  function Pushes(looked: seq<(int, Reply)>): seq<Record> {
    if looked == [] then []
    else
      var last := looked[|looked| - 1];
      Pushes(looked[..|looked| - 1]) + if last.1.Json? then [PersonRecord(PersonOf(last.1.body))] else []
  }

  lemma {:induction false} PushesAppend(a: seq<(int, Reply)>, b: seq<(int, Reply)>)
    ensures Pushes(a + b) == Pushes(a) + Pushes(b)
    decreases |b|
  {
    if b == [] {
      assert a + b == a;
    } else {
      var b' := b[..|b| - 1];
      PushesAppend(a, b');
      assert (a + b)[..|a + b| - 1] == a + b';
      assert (a + b)[|a + b| - 1] == b[|b| - 1];
    }
  }

  /** Lookups that all answered push one person record each. */
  lemma {:induction false} PushesAnswered(looked: seq<(int, Reply)>)
    requires Answered(looked)
    ensures |Pushes(looked)| == |looked|
    ensures forall i | 0 <= i < |looked| :: Pushes(looked)[i] == PersonRecord(PersonOf(looked[i].1.body))
    decreases |looked|
  {
    if looked != [] {
      PushesAnswered(looked[..|looked| - 1]);
    }
  }

  /**
   * From `w` to `w'` the log only grew; the person details asked for were
   * `looked`; a person record was pushed, in order, for each of them that
   * answered, and nothing else; each record was counted as an extra item.
   */
  predicate Recorded(w: World, w': World, looked: seq<(int, Reply)>) {
    w.log <= w'.log && |w'.script| <= |w.script|
    && Lookups(w'.log) == Lookups(w.log) + looked
    && PushedRecords(w'.log) == PushedRecords(w.log) + Pushes(looked)
    && w'.extraItems == w.extraItems + |Pushes(looked)|
    && w'.contents == w.contents && w'.apiFailures == w.apiFailures
  }

  lemma RecordedNothing(w: World)
    ensures Recorded(w, w, [])
  {
    assert Lookups(w.log) + [] == Lookups(w.log);
    assert PushedRecords(w.log) + [] == PushedRecords(w.log);
  }

  lemma RecordedChain(w: World, w1: World, w2: World, a: seq<(int, Reply)>, b: seq<(int, Reply)>)
    requires Recorded(w, w1, a) && Recorded(w1, w2, b)
    ensures Recorded(w, w2, a + b)
  {
    PushesAppend(a, b);
    assert Lookups(w.log) + a + b == Lookups(w.log) + (a + b);
    assert PushedRecords(w.log) + Pushes(a) + Pushes(b) == PushedRecords(w.log) + (Pushes(a) + Pushes(b));
    assert w1.log[..|w.log|] == w.log;
  }

  /** A search, without touching anything the people pipeline stores. */
  lemma SearchRecorded(w: World, apiKey: string, query: string, page: int)
    ensures var r := ApiCall(w, apiKey, SearchPerson, PersonQuery(query, page));
      Recorded(w, r.1, []) &&
      Searches(r.1.log) == Searches(w.log) + if apiKey == "" then [] else [(page, Next(w.script))]
  {
    if apiKey == "" {
      RecordedNothing(w);
      assert Searches(w.log) + [] == Searches(w.log);
    } else {
      var e := Sent(ApiGet(SearchPerson, apiKey, PersonQuery(query, page)), Next(w.script));
      LogAppendOne(w.log, e);
      AppendOne(w.log, e);
      assert Lookups(w.log) + [] == Lookups(w.log);
    }
  }

  /** One person: its detail, then its person record, counted as an extra item; a detail that fails throws. */
  function StorePerson(w: World, apiKey: string, id: int): (Outcome<()>, World) {
    var detail := ApiCall(w, apiKey, PersonDetailPath(id), PersonAppend);
    if detail.0.Threw? then (Threw, detail.1)
    else (Ok(()), Push(detail.1, PersonRecord(PersonOf(detail.0.value))).(extraItems := detail.1.extraItems + 1))
  }

  /** The work done for one person of a page: the world and the person's id in. */
  type PersonWork = (World, int) -> (Outcome<()>, World)

  /** The per-person work of `collectPeopleWithApi`. */
  function PersonWorker(apiKey: string): PersonWork {
    (w, id) => StorePerson(w, apiKey, id)
  }

  /**
   * What the work for one person does: it asks for the person's own detail
   * (nothing is sent without a key), and its record is pushed, and the call
   * ends normally, exactly when the detail answered.
   */
  predicate PersonDone(w: World, apiKey: string, id: int, r: (Outcome<()>, World)) {
    (apiKey == "" ==> r == (Threw, w))
    && (apiKey != "" ==> Recorded(w, r.1, [(id, Next(w.script))]) && Searches(r.1.log) == Searches(w.log))
    && (r.0.Ok? <==> apiKey != "" && Next(w.script).Json?)
  }

  /** The work for one person, named so that `LooksUp` is only used where a proof asks for it. */
  function WorkAt(work: PersonWork, w: World, id: int): (Outcome<()>, World) {
    work(w, id)
  }

  ghost predicate LooksUp(apiKey: string, work: PersonWork) {
    forall w, id {:trigger WorkAt(work, w, id)} :: PersonDone(w, apiKey, id, WorkAt(work, w, id))
  }

  lemma LooksUpAt(apiKey: string, work: PersonWork, w: World, id: int)
    requires LooksUp(apiKey, work)
    ensures PersonDone(w, apiKey, id, work(w, id))
  {
    assert PersonDone(w, apiKey, id, WorkAt(work, w, id));
  }

  lemma StorePersonShape(w: World, apiKey: string, id: int)
    ensures PersonDone(w, apiKey, id, StorePerson(w, apiKey, id))
  {
    if apiKey != "" {
      var looked := [(id, Next(w.script))];
      var e := Sent(ApiGet(PersonDetailPath(id), apiKey, PersonAppend), Next(w.script));
      LogAppendOne(w.log, e);
      AppendOne(w.log, e);
      assert looked[..0] == [];
      if Next(w.script).Json? {
        var rec := PersonRecord(PersonOf(Next(w.script).body));
        LogAppendOne(w.log + [e], Pushed(rec));
        AppendOne(w.log + [e], Pushed(rec));
        assert Pushes(looked) == [rec];
      } else {
        assert Pushes(looked) == [];
      }
    }
  }

  /** The per-person work of `collectPeopleWithApi` looks up each person and stores it. */
  lemma PersonWorkerLooksUp(apiKey: string)
    ensures LooksUp(apiKey, PersonWorker(apiKey))
  {
    forall w, id
      ensures PersonDone(w, apiKey, id, WorkAt(PersonWorker(apiKey), w, id))
    {
      StorePersonShape(w, apiKey, id);
    }
  }

  /** The loop over the persons of one page, with `collected` collected: the count it reaches. */
  function PersonsFrom(w: World, work: PersonWork, persons: seq<int>, limit: int, collected: int): (Outcome<int>, World)
    decreases |persons|
  {
    if persons == [] || collected >= limit then (Ok(collected), w)
    else
      var one := work(w, persons[0]);
      if one.0.Threw? then (Threw, one.1)
      else PersonsFrom(one.1, work, persons[1..], limit, collected + 1)
  }

  /**
   * The persons of a page are looked up in order, a prefix of them: all the
   * room left under the limit when every detail answers, and the lookups
   * up to the first that failed otherwise; the count grows by one per
   * person stored.
   */
  lemma {:induction false} PersonsFromShape(w: World, apiKey: string, work: PersonWork, persons: seq<int>, limit: int, collected: int)
    returns (looked: seq<(int, Reply)>)
    requires LooksUp(apiKey, work)
    ensures var r := PersonsFrom(w, work, persons, limit, collected);
      Recorded(w, r.1, looked) && Searches(r.1.log) == Searches(w.log)
    ensures |looked| <= Min(|persons|, Max(0, limit - collected)) && Ids(looked) == persons[..|looked|]
    ensures var r := PersonsFrom(w, work, persons, limit, collected);
      r.0.Ok? ==> r.0.value == collected + |looked| && |looked| == Min(|persons|, Max(0, limit - collected)) &&
                  Answered(looked)
    ensures var r := PersonsFrom(w, work, persons, limit, collected);
      r.0.Threw? ==> (apiKey == "" && r.1 == w) || (looked != [] && !looked[|looked| - 1].1.Json?)
    decreases |persons|
  {
    if persons == [] || collected >= limit {
      RecordedNothing(w);
      looked := [];
    } else {
      var one := work(w, persons[0]);
      LooksUpAt(apiKey, work, w, persons[0]);
      assert PersonsFrom(w, work, persons, limit, collected)
        == if one.0.Threw? then (Threw, one.1) else PersonsFrom(one.1, work, persons[1..], limit, collected + 1);
      if apiKey == "" {
        RecordedNothing(w);
        looked := [];
      } else if one.0.Threw? {
        looked := [(persons[0], Next(w.script))];
      } else {
        var rest := PersonsFromShape(one.1, apiKey, work, persons[1..], limit, collected + 1);
        assert Min(|persons|, Max(0, limit - collected)) == 1 + Min(|persons[1..]|, Max(0, limit - (collected + 1)));
        var first := [(persons[0], Next(w.script))];
        RecordedChain(w, one.1, PersonsFrom(one.1, work, persons[1..], limit, collected + 1).1, first, rest);
        looked := first + rest;
        LookedCons(first[0], rest, persons);
      }
    }
  }

  /** How a search page ended: the count collected so far, and whether the loop goes on to the next page. */
  datatype PeopleEnd = PeopleEnd(collected: int, more: bool)

  /** A search reply that lets the loop go on: persons, and more pages after this one. */
  predicate MorePeople(reply: Reply, page: int) {
    reply.Json? && ResultIds(reply.body) != [] && TotalPages(reply.body) > page
  }

  /** One turn of the page loop: the search page `page`, then its persons. */
  function PeopleStep(w: World, apiKey: string, query: string, work: PersonWork, limit: int, page: int, collected: int)
    : (Outcome<PeopleEnd>, World)
  {
    var response := ApiCall(w, apiKey, SearchPerson, PersonQuery(query, page));
    if response.0.Threw? then (Threw, response.1)
    else
      var persons := ResultIds(response.0.value);
      if persons == [] then (Ok(PeopleEnd(collected, false)), response.1)
      else
        var done := PersonsFrom(response.1, work, persons, limit, collected);
        if done.0.Threw? then (Threw, done.1)
        else (Ok(PeopleEnd(done.0.value, TotalPages(response.0.value) > page)), done.1)
  }

  /** The person details asked for from `w` to `w'`. */
  function Looked(w: World, w': World): seq<(int, Reply)> {
    var before := Lookups(w.log);
    var after := Lookups(w'.log);
    if |before| <= |after| then after[|before|..] else []
  }

  lemma LookedOf(w: World, w': World, looked: seq<(int, Reply)>)
    requires Recorded(w, w', looked)
    ensures Looked(w, w') == looked
  {
  }

  /**
   * What one turn of the page loop does: it asks for the search page `page`
   * (nothing without a key) and then for the details of a prefix of its
   * persons, in order, all the room left under the limit when the turn ends
   * normally; it goes on exactly when the page had persons and more pages
   * follow it.
   */
  predicate StepDone(w: World, apiKey: string, limit: int, page: int, collected: int, r: (Outcome<PeopleEnd>, World)) {
    StepRecorded(w, apiKey, limit, page, collected, r) && StepOk(w, limit, page, collected, r) && StepThrew(w, apiKey, r)
  }

  /** What any turn records: its search, and the lookups of at most the room left. */
  predicate StepRecorded(w: World, apiKey: string, limit: int, page: int, collected: int, r: (Outcome<PeopleEnd>, World)) {
    var looked := Looked(w, r.1);
    (apiKey == "" ==> r == (Threw, w))
    && (apiKey != "" ==> Searches(r.1.log) == Searches(w.log) + [(page, Next(w.script))])
    && Recorded(w, r.1, looked) && |looked| <= Max(0, limit - collected)
  }

  /** A turn that ends normally had a search answer and looked up all the room left, in order, every lookup answered. */
  predicate StepOk(w: World, limit: int, page: int, collected: int, r: (Outcome<PeopleEnd>, World)) {
    var looked := Looked(w, r.1);
    r.0.Ok? ==>
      Next(w.script).Json? &&
      var persons := ResultIds(Next(w.script).body);
      (r.0.value.more <==> MorePeople(Next(w.script), page)) &&
      r.0.value.collected == collected + |looked| && Answered(looked) &&
      |looked| == Min(|persons|, Max(0, limit - collected)) && Ids(looked) == persons[..|looked|]
  }

  /** A turn that throws had no key, a failed search, or a last lookup that failed. */
  predicate StepThrew(w: World, apiKey: string, r: (Outcome<PeopleEnd>, World)) {
    var looked := Looked(w, r.1);
    r.0.Threw? ==> apiKey == "" || !Next(w.script).Json? || (looked != [] && !looked[|looked| - 1].1.Json?)
  }

  lemma PeopleStepShape(w: World, apiKey: string, query: string, work: PersonWork, limit: int, page: int, collected: int)
    requires LooksUp(apiKey, work)
    ensures StepDone(w, apiKey, limit, page, collected, PeopleStep(w, apiKey, query, work, limit, page, collected))
  {
    var response := ApiCall(w, apiKey, SearchPerson, PersonQuery(query, page));
    if response.0.Threw? || ResultIds(response.0.value) == [] {
      PeopleStepNoPersons(w, apiKey, query, work, limit, page, collected);
    } else {
      PeopleStepPersons(w, apiKey, query, work, limit, page, collected);
    }
  }

  /** A turn whose search fails or finds nobody looks nobody up. */
  lemma PeopleStepNoPersons(w: World, apiKey: string, query: string, work: PersonWork, limit: int, page: int, collected: int)
    requires var response := ApiCall(w, apiKey, SearchPerson, PersonQuery(query, page));
      response.0.Threw? || ResultIds(response.0.value) == []
    ensures StepDone(w, apiKey, limit, page, collected, PeopleStep(w, apiKey, query, work, limit, page, collected))
  {
    var r := PeopleStep(w, apiKey, query, work, limit, page, collected);
    var response := ApiCall(w, apiKey, SearchPerson, PersonQuery(query, page));
    SearchRecorded(w, apiKey, query, page);
    assert r.1 == response.1;
    LookedOf(w, r.1, []);
  }

  /** A turn whose search finds persons looks up a prefix of them. */
  lemma PeopleStepPersons(w: World, apiKey: string, query: string, work: PersonWork, limit: int, page: int, collected: int)
    requires LooksUp(apiKey, work)
    requires var response := ApiCall(w, apiKey, SearchPerson, PersonQuery(query, page));
      response.0.Ok? && ResultIds(response.0.value) != []
    ensures StepDone(w, apiKey, limit, page, collected, PeopleStep(w, apiKey, query, work, limit, page, collected))
  {
    var r := PeopleStep(w, apiKey, query, work, limit, page, collected);
    var response := ApiCall(w, apiKey, SearchPerson, PersonQuery(query, page));
    var looked := PeopleStepLooked(w, apiKey, query, work, limit, page, collected);
    var done := PersonsFrom(response.1, work, ResultIds(response.0.value), limit, collected);
    assert r == (if done.0.Threw? then Threw else Ok(PeopleEnd(done.0.value, TotalPages(response.0.value) > page)), done.1);
    assert Next(w.script) == Json(response.0.value);
    assert StepOk(w, limit, page, collected, r);
    assert StepThrew(w, apiKey, r);
  }

  /** The lookups of a turn whose search finds persons: the ones of the loop over them. */
  lemma PeopleStepLooked(w: World, apiKey: string, query: string, work: PersonWork, limit: int, page: int, collected: int)
    returns (looked: seq<(int, Reply)>)
    requires LooksUp(apiKey, work)
    requires var response := ApiCall(w, apiKey, SearchPerson, PersonQuery(query, page));
      response.0.Ok? && ResultIds(response.0.value) != []
    ensures var response := ApiCall(w, apiKey, SearchPerson, PersonQuery(query, page));
      var persons := ResultIds(response.0.value);
      var done := PersonsFrom(response.1, work, persons, limit, collected);
      && PeopleStep(w, apiKey, query, work, limit, page, collected).1 == done.1
      && |looked| <= Min(|persons|, Max(0, limit - collected)) && Ids(looked) == persons[..|looked|]
      && (done.0.Ok? ==> done.0.value == collected + |looked| && |looked| == Min(|persons|, Max(0, limit - collected)) && Answered(looked))
      && (done.0.Threw? ==> looked != [] && !looked[|looked| - 1].1.Json?)
    ensures Looked(w, PeopleStep(w, apiKey, query, work, limit, page, collected).1) == looked
    ensures StepRecorded(w, apiKey, limit, page, collected, PeopleStep(w, apiKey, query, work, limit, page, collected))
  {
    var r := PeopleStep(w, apiKey, query, work, limit, page, collected);
    var response := ApiCall(w, apiKey, SearchPerson, PersonQuery(query, page));
    SearchRecorded(w, apiKey, query, page);
    var persons := ResultIds(response.0.value);
    var done := PersonsFrom(response.1, work, persons, limit, collected);
    assert r.1 == done.1;
    looked := PersonsFromShape(response.1, apiKey, work, persons, limit, collected);
    SearchThenLookups(w, response.1, done.1, looked, page);
  }

  /** A search followed by lookups: the lookups are what was looked up, and the search is recorded once. */
  lemma SearchThenLookups(w: World, w1: World, w2: World, looked: seq<(int, Reply)>, page: int)
    requires Recorded(w, w1, []) && Searches(w1.log) == Searches(w.log) + [(page, Next(w.script))]
    requires Recorded(w1, w2, looked) && Searches(w2.log) == Searches(w1.log)
    ensures Looked(w, w2) == looked && Recorded(w, w2, looked)
    ensures Searches(w2.log) == Searches(w.log) + [(page, Next(w.script))]
  {
    RecordedChain(w, w1, w2, [], looked);
    assert [] + looked == looked;
    LookedOf(w, w2, looked);
  }
  /** A turn of the page loop: the page and the count collected so far in, how the page ended out. */
  type PeopleStepper = (World, int, int) -> (Outcome<PeopleEnd>, World)

  /** The turn of `collectPeopleWithApi`'s page loop. */
  function PeopleTurn(apiKey: string, query: string, work: PersonWork, limit: int): PeopleStepper {
    (w, page, collected) => PeopleStep(w, apiKey, query, work, limit, page, collected)
  }

  /** A turn, named so that `TurnsDone` is only used where a proof asks for it. */
  function TurnAt(step: PeopleStepper, w: World, page: int, collected: int): (Outcome<PeopleEnd>, World) {
    step(w, page, collected)
  }

  ghost predicate TurnsDone(apiKey: string, limit: int, step: PeopleStepper) {
    forall w, page, collected {:trigger TurnAt(step, w, page, collected)} ::
      StepDone(w, apiKey, limit, page, collected, TurnAt(step, w, page, collected))
  }

  lemma TurnsDoneAt(apiKey: string, limit: int, step: PeopleStepper, w: World, page: int, collected: int)
    requires TurnsDone(apiKey, limit, step)
    ensures StepDone(w, apiKey, limit, page, collected, step(w, page, collected))
  {
    assert StepDone(w, apiKey, limit, page, collected, TurnAt(step, w, page, collected));
  }

  /** What a turn does to the searches of the log. */
  lemma TurnSearchesAt(apiKey: string, limit: int, step: PeopleStepper, w: World, page: int, collected: int)
    requires TurnsDone(apiKey, limit, step)
    ensures apiKey == "" ==> step(w, page, collected) == (Threw, w)
    ensures apiKey != "" ==> Searches(step(w, page, collected).1.log) == Searches(w.log) + [(page, Next(w.script))]
  {
    TurnsDoneAt(apiKey, limit, step, w, page, collected);
  }

  /** How a turn that ends normally decides whether to go on. */
  lemma TurnEndsAt(apiKey: string, limit: int, step: PeopleStepper, w: World, page: int, collected: int)
    requires TurnsDone(apiKey, limit, step)
    ensures apiKey == "" ==> step(w, page, collected) == (Threw, w)
    ensures var r := step(w, page, collected);
      r.0.Ok? ==> Next(w.script).Json? && (r.0.value.more <==> MorePeople(Next(w.script), page))
  {
    TurnsDoneAt(apiKey, limit, step, w, page, collected);
  }

  /** The turn of `collectPeopleWithApi` is such a turn. */
  lemma PeopleTurnDone(apiKey: string, query: string, limit: int)
    ensures TurnsDone(apiKey, limit, PeopleTurn(apiKey, query, PersonWorker(apiKey), limit))
  {
    PersonWorkerLooksUp(apiKey);
    forall w, page, collected
      ensures StepDone(w, apiKey, limit, page, collected, TurnAt(PeopleTurn(apiKey, query, PersonWorker(apiKey), limit), w, page, collected))
    {
      PeopleStepShape(w, apiKey, query, PersonWorker(apiKey), limit, page, collected);
    }
  }

  /** The page loop from `page` on, with `collected` collected: `{collected, lastPage}`, or an exception. */
  function PeoplePages(w: World, step: PeopleStepper, limit: int, page: int, collected: int): (Outcome<(int, int)>, World)
    decreases MAX_PERSON_PAGES - page
  {
    if collected < limit && page <= MAX_PERSON_PAGES then
      var r := step(w, page, collected);
      if r.0.Threw? then (Threw, r.1)
      else if r.0.value.more then PeoplePages(r.1, step, limit, page + 1, r.0.value.collected)
      else (Ok((r.0.value.collected, page)), r.1)
    else (Ok((collected, page - 1)), w)
  }

  /** `collectPeopleWithApi` from `startPage`: an empty query collects nothing and asks for nothing. */
  function CollectPeople(w: World, apiKey: string, query: string, limit: int, startPage: int): (Outcome<(int, int)>, World) {
    if query == "" then (Ok((0, startPage - 1)), w)
    else PeoplePages(w, PeopleTurn(apiKey, query, PersonWorker(apiKey), limit), limit, startPage, 0)
  }

  /** The person searches the page loop makes, in order. */
  ghost function PeopleSearches(w: World, apiKey: string, step: PeopleStepper, limit: int, page: int, collected: int): seq<(int, Reply)>
    decreases MAX_PERSON_PAGES - page
  {
    if collected < limit && page <= MAX_PERSON_PAGES && apiKey != "" then
      var r := step(w, page, collected);
      if r.0.Ok? && r.0.value.more then [(page, Next(w.script))] + PeopleSearches(r.1, apiKey, step, limit, page + 1, r.0.value.collected)
      else [(page, Next(w.script))]
    else []
  }

  /** The searches of the page loop are for consecutive pages from `page` on, never past page 5. */
  lemma {:induction false} PeopleSearchesPages(w: World, apiKey: string, step: PeopleStepper, limit: int, page: int, collected: int)
    ensures var s := PeopleSearches(w, apiKey, step, limit, page, collected);
      page - 1 + |s| <= Max(page - 1, MAX_PERSON_PAGES) && forall i | 0 <= i < |s| :: s[i].0 == page + i
    decreases MAX_PERSON_PAGES - page
  {
    if collected < limit && page <= MAX_PERSON_PAGES && apiKey != "" {
      var r := step(w, page, collected);
      if r.0.Ok? && r.0.value.more {
        var s := PeopleSearches(r.1, apiKey, step, limit, page + 1, r.0.value.collected);
        PeopleSearchesPages(r.1, apiKey, step, limit, page + 1, r.0.value.collected);
        assert forall i | 1 <= i < 1 + |s| :: ([(page, Next(w.script))] + s)[i] == s[i - 1];
      }
    }
  }

  /** The page loop logs exactly its searches, and returns the page of the last one as `lastPage`. */
  lemma {:induction false} PeoplePagesSearches(w: World, apiKey: string, step: PeopleStepper, limit: int, page: int, collected: int)
    requires TurnsDone(apiKey, limit, step)
    ensures var s := PeopleSearches(w, apiKey, step, limit, page, collected);
      Searches(PeoplePages(w, step, limit, page, collected).1.log) == Searches(w.log) + s
    ensures var s := PeopleSearches(w, apiKey, step, limit, page, collected);
      var r := PeoplePages(w, step, limit, page, collected);
      r.0.Ok? ==> r.0.value.1 == page - 1 + |s|
    decreases MAX_PERSON_PAGES - page
  {
    if collected < limit && page <= MAX_PERSON_PAGES {
      var r := step(w, page, collected);
      TurnSearchesAt(apiKey, limit, step, w, page, collected);
      if apiKey == "" {
        assert PeopleSearches(w, apiKey, step, limit, page, collected) == [];
        assert Searches(w.log) + [] == Searches(w.log);
      } else if r.0.Ok? && r.0.value.more {
        PeoplePagesSearches(r.1, apiKey, step, limit, page + 1, r.0.value.collected);
        var s := PeopleSearches(r.1, apiKey, step, limit, page + 1, r.0.value.collected);
        assert PeopleSearches(w, apiKey, step, limit, page, collected) == [(page, Next(w.script))] + s;
        assert Searches(w.log) + [(page, Next(w.script))] + s == Searches(w.log) + ([(page, Next(w.script))] + s);
      } else {
        assert PeopleSearches(w, apiKey, step, limit, page, collected) == [(page, Next(w.script))];
      }
    } else {
      assert Searches(w.log) + [] == Searches(w.log);
    }
  }

  /**
   * Every person the page loop looked up was stored when the loop ends
   * normally, and it never collects past the limit.
   */
  lemma {:induction false} PeoplePagesRecorded(w: World, apiKey: string, step: PeopleStepper, limit: int, page: int, collected: int)
    returns (looked: seq<(int, Reply)>)
    requires TurnsDone(apiKey, limit, step)
    ensures Recorded(w, PeoplePages(w, step, limit, page, collected).1, looked)
    ensures collected + |looked| <= Max(collected, limit)
    ensures var r := PeoplePages(w, step, limit, page, collected);
      r.0.Ok? ==> r.0.value.0 == collected + |looked| && Answered(looked)
    decreases MAX_PERSON_PAGES - page
  {
    if collected < limit && page <= MAX_PERSON_PAGES {
      var r := step(w, page, collected);
      TurnsDoneAt(apiKey, limit, step, w, page, collected);
      assert PeoplePages(w, step, limit, page, collected)
        == if r.0.Threw? then (Threw, r.1)
           else if r.0.value.more then PeoplePages(r.1, step, limit, page + 1, r.0.value.collected)
           else (Ok((r.0.value.collected, page)), r.1);
      var first := Looked(w, r.1);
      if r.0.Ok? && r.0.value.more {
        var rest := PeoplePagesRecorded(r.1, apiKey, step, limit, page + 1, r.0.value.collected);
        RecordedChain(w, r.1, PeoplePages(r.1, step, limit, page + 1, r.0.value.collected).1, first, rest);
        looked := first + rest;
        if Answered(first) && Answered(rest) {
          AnsweredAppend(first, rest);
        }
      } else {
        looked := first;
      }
    } else {
      RecordedNothing(w);
      looked := [];
    }
  }

  /** Searches each of which but the last let the page loop go on, the first of them for `page`. */
  predicate AllMore(s: seq<(int, Reply)>, page: int) {
    forall i | 0 <= i < |s| - 1 :: MorePeople(s[i].1, page + i)
  }

  lemma AllMoreCons(x: (int, Reply), s: seq<(int, Reply)>, page: int)
    requires AllMore(s, page + 1) && (s != [] ==> MorePeople(x.1, page))
    ensures AllMore([x] + s, page)
    ensures s != [] ==> ([x] + s)[|s|] == s[|s| - 1]
  {
    assert forall i | 1 <= i < 1 + |s| :: ([x] + s)[i] == s[i - 1];
  }

  /** Every search page but the last answered with more pages to come, so the loop went on past it. */
  lemma {:induction false} PeoplePagesMore(w: World, apiKey: string, step: PeopleStepper, limit: int, page: int, collected: int)
    requires TurnsDone(apiKey, limit, step)
    ensures AllMore(PeopleSearches(w, apiKey, step, limit, page, collected), page)
    decreases MAX_PERSON_PAGES - page
  {
    if collected < limit && page <= MAX_PERSON_PAGES {
      var r := step(w, page, collected);
      TurnsDoneAt(apiKey, limit, step, w, page, collected);
      if apiKey != "" && r.0.Ok? && r.0.value.more {
        var s := PeopleSearches(r.1, apiKey, step, limit, page + 1, r.0.value.collected);
        PeoplePagesMore(r.1, apiKey, step, limit, page + 1, r.0.value.collected);
        AllMoreCons((page, Next(w.script)), s, page);
        assert PeopleSearches(w, apiKey, step, limit, page, collected) == [(page, Next(w.script))] + s;
      } else if apiKey != "" {
        assert PeopleSearches(w, apiKey, step, limit, page, collected) == [(page, Next(w.script))];
      }
    }
  }

  /**
   * After the last search page the loop stopped because that page answered
   * and was empty or the last one, or because the limit or page 5 was
   * reached. A loop that asked for nothing was entered at the limit or past
   * page 5, or throws without a key, having sent nothing.
   */
  lemma {:induction false} PeoplePagesStop(w: World, apiKey: string, step: PeopleStepper, limit: int, page: int, collected: int)
    requires TurnsDone(apiKey, limit, step)
    ensures var s := PeopleSearches(w, apiKey, step, limit, page, collected);
      var r := PeoplePages(w, step, limit, page, collected);
      r.0.Ok? && s != [] ==>
        s[|s| - 1].1.Json? &&
        (!MorePeople(s[|s| - 1].1, page - 1 + |s|) || r.0.value.0 >= limit || page - 1 + |s| == MAX_PERSON_PAGES)
    ensures var s := PeopleSearches(w, apiKey, step, limit, page, collected);
      var r := PeoplePages(w, step, limit, page, collected);
      s == [] ==> (r.0.Ok? && (collected >= limit || page > MAX_PERSON_PAGES)) || (apiKey == "" && r == (Threw, w))
    decreases MAX_PERSON_PAGES - page
  {
    if collected < limit && page <= MAX_PERSON_PAGES {
      var r := step(w, page, collected);
      TurnEndsAt(apiKey, limit, step, w, page, collected);
      if apiKey != "" && r.0.Ok? && r.0.value.more {
        var s := PeopleSearches(r.1, apiKey, step, limit, page + 1, r.0.value.collected);
        PeoplePagesStop(r.1, apiKey, step, limit, page + 1, r.0.value.collected);
        var x := (page, Next(w.script));
        assert PeopleSearches(w, apiKey, step, limit, page, collected) == [x] + s;
        if s == [] {
          assert r.0.value.collected >= limit || page == MAX_PERSON_PAGES;
        } else {
          assert ([x] + s)[|s|] == s[|s| - 1];
        }
      } else if apiKey != "" {
        assert PeopleSearches(w, apiKey, step, limit, page, collected) == [(page, Next(w.script))];
      }
    }
  }

  /** Search pages appended after `a` in the order `startPage`, `startPage + 1`, ... sit at those pages in `a + s`. */
  lemma SuffixPages(a: seq<(int, Reply)>, s: seq<(int, Reply)>, b: seq<(int, Reply)>, startPage: int)
    requires b == a + s && forall i | 0 <= i < |s| :: s[i].0 == startPage + i
    ensures forall k | |a| <= k < |b| :: b[k].0 == startPage + (k - |a|)
  {
    assert forall k | |a| <= k < |b| :: b[k] == s[k - |a|];
  }

  /**
   * `collectPeopleWithApi`: an empty query returns at once; otherwise a call
   * that ends normally collected at most `limit` people, each of them looked
   * up and stored as one person record counted as an extra item, in the
   * order they were looked up.
   */
  lemma CollectPeopleShape(w: World, apiKey: string, query: string, limit: int, startPage: int)
    returns (looked: seq<(int, Reply)>)
    ensures query == "" ==> CollectPeople(w, apiKey, query, limit, startPage) == (Ok((0, startPage - 1)), w)
    ensures Recorded(w, CollectPeople(w, apiKey, query, limit, startPage).1, looked) && |looked| <= Max(0, limit)
    ensures var r := CollectPeople(w, apiKey, query, limit, startPage);
      r.0.Ok? ==>
        var n := r.0.value.0;
        0 <= n == |looked| <= Max(0, limit) && Answered(looked) &&
        PushedRecords(r.1.log) == PushedRecords(w.log) + Pushes(looked) && |Pushes(looked)| == n &&
        r.1.extraItems == w.extraItems + n
  {
    if query == "" {
      RecordedNothing(w);
      looked := [];
    } else {
      var step := PeopleTurn(apiKey, query, PersonWorker(apiKey), limit);
      PeopleTurnDone(apiKey, query, limit);
      looked := PeoplePagesRecorded(w, apiKey, step, limit, startPage, 0);
      if PeoplePages(w, step, limit, startPage, 0).0.Ok? {
        PushesAnswered(looked);
      }
    }
  }

  /**
   * The search pages a normal end of `collectPeopleWithApi` asked for are
   * `startPage` to the `lastPage` it returns, consecutive and never past
   * page 5.
   */
  lemma CollectPeopleSearches(w: World, apiKey: string, query: string, limit: int, startPage: int)
    ensures var r := CollectPeople(w, apiKey, query, limit, startPage);
      r.0.Ok? ==>
        var lastPage := r.0.value.1;
        startPage - 1 <= lastPage <= Max(startPage - 1, MAX_PERSON_PAGES) &&
        |Searches(r.1.log)| == |Searches(w.log)| + (lastPage - startPage + 1) &&
        forall k | |Searches(w.log)| <= k < |Searches(r.1.log)| :: Searches(r.1.log)[k].0 == startPage + (k - |Searches(w.log)|)
  {
    if query != "" {
      var step := PeopleTurn(apiKey, query, PersonWorker(apiKey), limit);
      PeopleTurnDone(apiKey, query, limit);
      PeoplePagesSearches(w, apiKey, step, limit, startPage, 0);
      PeopleSearchesPages(w, apiKey, step, limit, startPage, 0);
      var r := PeoplePages(w, step, limit, startPage, 0);
      if r.0.Ok? {
        SuffixPages(Searches(w.log), PeopleSearches(w, apiKey, step, limit, startPage, 0), Searches(r.1.log), startPage);
      }
    }
  }

  /** One person on the objects. */
  method PushPerson(env: Env, stats: Stats, apiKey: string, id: int) returns (out: Outcome<()>)
    modifies env, stats
    ensures (out, Now(env, stats)) == StorePerson(old(Now(env, stats)), apiKey, id)
  {
    var detail := ApiRequest(env, stats, apiKey, PersonDetailPath(id), PersonAppend);
    if detail.Threw? {
      return Threw;
    }
    env.Push(PersonRecord(PersonOf(detail.value)));
    stats.extraItems := stats.extraItems + 1;
    return Ok(());
  }

  /** The persons of one page on the objects, with `collected0` collected. */
  method StorePersons(env: Env, stats: Stats, apiKey: string, persons: seq<int>, limit: int, collected0: int)
    returns (out: Outcome<int>)
    modifies env, stats
    ensures (out, Now(env, stats)) == PersonsFrom(old(Now(env, stats)), PersonWorker(apiKey), persons, limit, collected0)
  {
    ghost var w0 := Now(env, stats);
    var collected := collected0;
    assert persons[0..] == persons;
    for i := 0 to |persons|
      invariant PersonsFrom(Now(env, stats), PersonWorker(apiKey), persons[i..], limit, collected)
             == PersonsFrom(w0, PersonWorker(apiKey), persons, limit, collected0)
    {
      if collected >= limit {
        break;
      }
      assert persons[i..][1..] == persons[i + 1..];
      ghost var before := Now(env, stats);
      var one := PushPerson(env, stats, apiKey, persons[i]);
      assert PersonWorker(apiKey)(before, persons[i]) == StorePerson(before, apiKey, persons[i]);
      if one.Threw? {
        return Threw;
      }
      collected := collected + 1;
    }
    return Ok(collected);
  }

  /** One search page on the objects. */
  method SearchPeoplePage(env: Env, stats: Stats, apiKey: string, query: string, limit: int, page: int, collected: int)
    returns (out: Outcome<PeopleEnd>)
    modifies env, stats
    ensures (out, Now(env, stats)) == PeopleStep(old(Now(env, stats)), apiKey, query, PersonWorker(apiKey), limit, page, collected)
  {
    var response := ApiRequest(env, stats, apiKey, SearchPerson, PersonQuery(query, page));
    if response.Threw? {
      return Threw;
    }
    var persons := ResultIds(response.value);
    if persons == [] {
      return Ok(PeopleEnd(collected, false));
    }
    var done := StorePersons(env, stats, apiKey, persons, limit, collected);
    if done.Threw? {
      return Threw;
    }
    return Ok(PeopleEnd(done.value, TotalPages(response.value) > page));
  }

  /** `collectPeopleWithApi` on the objects, from `startPage`. */
  method CollectPeopleWithApi(env: Env, stats: Stats, apiKey: string, query: string, limit: int, startPage: int)
    returns (out: Outcome<(int, int)>)
    modifies env, stats
    ensures (out, Now(env, stats)) == CollectPeople(old(Now(env, stats)), apiKey, query, limit, startPage)
  {
    if query == "" {
      return Ok((0, startPage - 1));
    }
    ghost var w0 := Now(env, stats);
    var collected := 0;
    var page := startPage;
    var lastPage := startPage - 1;
    while collected < limit && page <= MAX_PERSON_PAGES
      invariant PeoplePages(Now(env, stats), PeopleTurn(apiKey, query, PersonWorker(apiKey), limit), limit, page, collected)
             == PeoplePages(w0, PeopleTurn(apiKey, query, PersonWorker(apiKey), limit), limit, startPage, 0)
      invariant lastPage == page - 1
      decreases MAX_PERSON_PAGES - page
    {
      lastPage := page;
      var step := SearchPeoplePage(env, stats, apiKey, query, limit, page, collected);
      if step.Threw? {
        return Threw;
      }
      collected := step.value.collected;
      if !step.value.more {
        return Ok((collected, lastPage));
      }
      page := page + 1;
    }
    return Ok((collected, lastPage));
  }
}
