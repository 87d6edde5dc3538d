/**
 The login handler `login` of `login_page` (main.py:224-269): it validates
 the two fields, looks the student up by title-cased name, compares the
 stored password, and reports exactly one outcome.

 The student database is a parameter: a function from the lookup key to an
 optional record, standing for `get_student_by_full_name`.
 */
module LoginFlow {
  import opened Wrappers
  import opened PyText
  import opened Widgets

  /** A row of the students table; the handler reads only field index 2,
      the stored password. */
  datatype Student = Student(id: int, fullName: string, password: string)

  const MinNameWords := 3
  const MinPasswordLength := 6

  const NameWarning := "⚠️ Введіть повне ПІБ"
  const PasswordWarning := "⚠️ Пароль має містити мінімум 6 символів"
  const NotFoundError := "❌ Користувача не знайдено"
  const WrongPasswordError := "❌ Неправильний пароль"
  const SuccessNotice := "✅ Успішний вхід!"

  /** The outcome of the two input checks. */
  datatype Verdict = InvalidName | WeakPassword | Valid

  /** The outcome of a lookup. */
  datatype Outcome = NotFound | WrongPassword | Success

  /** What one press of the login button ends in. */
  datatype Attempt = Refused(verdict: Verdict) | Resolved(outcome: Outcome)

  /** The two input checks of main.py:225-234, in order, on the raw field values. */
  function Validate(fullName: string, password: string): (v: Verdict) {
    var name := Strip(fullName);
    var secret := Strip(password);
    if name == [] || |Words(name)| < MinNameWords then InvalidName
    else if secret == [] || |secret| < MinPasswordLength then WeakPassword
    else Valid
  }

  /** The name check comes first and counts the tokens of the raw name (the
      emptiness test is subsumed); the password check applies only to a
      valid name; both must pass for `Valid`. */
  lemma {:induction false} ValidateCases(fullName: string, password: string)
    ensures Validate(fullName, password) == InvalidName <==> |Words(fullName)| < MinNameWords
    ensures Validate(fullName, password) == WeakPassword <==>
      |Words(fullName)| >= MinNameWords && |Strip(password)| < MinPasswordLength
    ensures Validate(fullName, password) == Valid <==>
      |Words(fullName)| >= MinNameWords && |Strip(password)| >= MinPasswordLength
  {
    NameShort(fullName);
  }

  /** The name check `not full_name or len(full_name.split()) < 3` on the
      stripped name fails exactly when the raw name has fewer than three
      tokens. */
  lemma {:induction false} NameShort(name: string)
    ensures (Strip(name) == [] || |Words(Strip(name))| < MinNameWords) <==> |Words(name)| < MinNameWords
  {
    WordsOfStrip(name);
    if Strip(name) == [] {
      WordsOfSpaces(Strip(name));
    }
  }

  /** Three or more whitespace-free words joined by single spaces pass the
      name check. */
  lemma {:induction false} JoinedNamePasses(ws: seq<string>, password: string)
    requires |ws| >= MinNameWords
    requires forall i :: 0 <= i < |ws| ==> ws[i] != [] && NoSpace(ws[i])
    requires |Strip(password)| >= MinPasswordLength
    ensures Validate(JoinWords(ws), password) == Valid
  {
    WordsOfJoin(ws);
    ValidateCases(JoinWords(ws), password);
  }

  /** The lookup key: `full_name.strip().title()`. */
  function LookupKey(m: CaseMapping, fullName: string): (key: string)
    ensures |key| == |Strip(fullName)|
  {
    TitleCase(m, Strip(fullName))
  }

  /** The key is a canonical form: typing the key itself looks up the same
      record. */
  lemma {:induction false} LookupKeyCanonical(m: CaseMapping, fullName: string)
    requires Coherent(m)
    ensures LookupKey(m, LookupKey(m, fullName)) == LookupKey(m, fullName)
  {
    var key := LookupKey(m, fullName);
    TitleCaseKeepsStripped(m, Strip(fullName));
    TitleCaseIdempotent(m, Strip(fullName));
  }

  /** The three-way decision of main.py:241-258 on the lookup result and the
      stripped password. */
  function Decide(found: Option<Student>, password: string): (o: Outcome) {
    if found.None? then NotFound
    else if found.value.password != password then WrongPassword
    else Success
  }

  /** Each outcome holds exactly under its own condition: no record, a record
      whose stored password differs, a record whose stored password is equal. */
  lemma {:induction false} DecideCases(found: Option<Student>, password: string)
    ensures Decide(found, password) == NotFound <==> found == None
    ensures Decide(found, password) == WrongPassword <==>
      found.Some? && found.value.password != password
    ensures Decide(found, password) == Success <==>
      found.Some? && found.value.password == password
  {
  }

  /** The whole decision for one submission. */
  function Evaluate(m: CaseMapping, fullName: string, password: string,
                    db: string -> Option<Student>): (a: Attempt)
  {
    var verdict := Validate(fullName, password);
    if verdict != Valid then Refused(verdict)
    else Resolved(Decide(db(LookupKey(m, fullName)), Strip(password)))
  }

  /** Unfolds `Evaluate` on a submission that passes both checks, for
      `Login` and `PressEffects`. */
  lemma EvaluateValid(m: CaseMapping, fullName: string, password: string,
                      db: string -> Option<Student>)
    requires Validate(fullName, password) == Valid
    ensures Evaluate(m, fullName, password, db) ==
      Resolved(Decide(db(LookupKey(m, fullName)), Strip(password)))
  {
  }

  /** Unfolds `Evaluate` on a submission that fails a check, for `Login`,
      `PressEffects` and `RefusalIgnoresDatabase`. */
  lemma EvaluateRefused(m: CaseMapping, fullName: string, password: string,
                        db: string -> Option<Student>)
    requires Validate(fullName, password) != Valid
    ensures Evaluate(m, fullName, password, db) == Refused(Validate(fullName, password))
  {
  }

  /** A refused submission never consults the database: its attempt is the
      same whatever the lookup returns. */
  lemma {:induction false} RefusalIgnoresDatabase(m: CaseMapping, fullName: string, password: string,
                                                  db1: string -> Option<Student>, db2: string -> Option<Student>)
    requires Validate(fullName, password) != Valid
    ensures Evaluate(m, fullName, password, db1) == Evaluate(m, fullName, password, db2)
    ensures Evaluate(m, fullName, password, db1).Refused?
  {
    EvaluateRefused(m, fullName, password, db1);
    EvaluateRefused(m, fullName, password, db2);
  }

  /** Only the record stored under the lookup key matters: two databases that
      agree on the key give the same attempt. */
  lemma {:induction false} OnlyKeyMatters(m: CaseMapping, fullName: string, password: string,
                                          db1: string -> Option<Student>, db2: string -> Option<Student>)
    requires db1(LookupKey(m, fullName)) == db2(LookupKey(m, fullName))
    ensures Evaluate(m, fullName, password, db1) == Evaluate(m, fullName, password, db2)
  {
  }

  /** When both checks pass and the key names a stored record, the attempt
      is decided by that record's password alone. */
  lemma {:induction false} EvaluateFound(m: CaseMapping, fullName: string, password: string,
                                         db: string -> Option<Student>, record: Student)
    requires Validate(fullName, password) == Valid
    requires db(LookupKey(m, fullName)) == Some(record)
    ensures Evaluate(m, fullName, password, db) ==
      Resolved(if record.password == Strip(password) then Success else WrongPassword)
  {
    EvaluateValid(m, fullName, password, db);
  }

  /** A banner's text and palette key. */
  datatype Feedback = Feedback(text: string, colorKey: string)

  /** The banner each attempt ends with. */
  function FeedbackFor(a: Attempt): (fb: Feedback) {
    match a
    case Refused(InvalidName) => Feedback(NameWarning, "warning")
    case Refused(_) => Feedback(PasswordWarning, "warning")
    case Resolved(NotFound) => Feedback(NotFoundError, "error")
    case Resolved(WrongPassword) => Feedback(WrongPasswordError, "error")
    case Resolved(Success) => Feedback(SuccessNotice, "success")
  }

  /** The banner tells the attempts apart, and its level tells the kind:
      warnings for refused input, errors for a failed lookup, success otherwise. */
  lemma {:induction false} FeedbackDistinguishes(a: Attempt, b: Attempt)
    requires a.Refused? ==> a.verdict != Valid
    requires b.Refused? ==> b.verdict != Valid
    ensures FeedbackFor(a) == FeedbackFor(b) <==> a == b
    ensures FeedbackFor(a).colorKey == "warning" <==> a.Refused?
    ensures FeedbackFor(a).colorKey == "success" <==> a == Resolved(Success)
  {
  }

  /** What the handler does that can be observed, in order. */
  datatype Event =
    | Notify(text: string, colorKey: string)   // message.show
    | LoadingShown                            // loading.show()
    | LoadingHidden                           // loading.hide()
    | Lookup(key: string)                     // get_student_by_full_name
    | Shaken                                  // the not-found shake
    | PasswordCleared                         // password field set to ""
    | MainPageShown                           // page.clean(); page.add(main_page)

  /** The events after the lookup that ends in outcome `o`. */
  function Ending(o: Outcome): (t: seq<Event>) {
    var f := FeedbackFor(Resolved(o));
    match o
    case NotFound => [LoadingHidden, Notify(f.text, f.colorKey), Shaken]
    case WrongPassword => [LoadingHidden, Notify(f.text, f.colorKey), PasswordCleared]
    case Success => [Notify(f.text, f.colorKey), LoadingHidden, MainPageShown]
  }

  /** The events of one run of the handler that ends in attempt `a`, where
      `key` is the lookup key of the submitted name. */
  function Run(a: Attempt, key: string): (t: seq<Event>) {
    match a
    case Refused(_) => [Notify(FeedbackFor(a).text, FeedbackFor(a).colorKey)]
    case Resolved(o) => [LoadingShown, Lookup(key)] + Ending(o)
  }

  /** The events of one run of the handler on the given field values. */
  function Trace(m: CaseMapping, fullName: string, password: string,
                 db: string -> Option<Student>): (t: seq<Event>)
  {
    Run(Evaluate(m, fullName, password, db), LookupKey(m, fullName))
  }

  function Lookups(t: seq<Event>): (keys: seq<string>) {
    if t == [] then []
    else (if t[0].Lookup? then [t[0].key] else []) + Lookups(t[1..])
  }

  function Feedbacks(t: seq<Event>): (fbs: seq<Feedback>) {
    if t == [] then []
    else (if t[0].Notify? then [Feedback(t[0].text, t[0].colorKey)] else []) + Feedbacks(t[1..])
  }

  function LoadingEvents(t: seq<Event>): (u: seq<Event>) {
    if t == [] then []
    else (if t[0] == LoadingShown || t[0] == LoadingHidden then [t[0]] else []) + LoadingEvents(t[1..])
  }

  /** A refused run is one warning banner; a resolved run is five events. */
  lemma {:induction false} RunShape(a: Attempt, key: string)
    ensures a.Refused? ==> Run(a, key) == [Notify(FeedbackFor(a).text, "warning")]
    ensures a.Resolved? ==> |Run(a, key)| == 5
  {
  }

  /** Exactly one lookup follows valid input, none follows refused input. */
  lemma {:induction false} RunLookups(a: Attempt, key: string)
    ensures Lookups(Run(a, key)) == if a.Resolved? then [key] else []
  {
    var t := Run(a, key);
    if a.Resolved? {
      assert Lookups(t[5..]) == [];
      assert Lookups(t[4..]) == [];
      assert Lookups(t[3..]) == [];
      assert Lookups(t[2..]) == [];
      assert Lookups(t[1..]) == [key];
    } else {
      assert Lookups(t[1..]) == [];
    }
  }

  /** Every run shows exactly one banner, the one its attempt calls for. */
  lemma {:induction false} RunFeedbacks(a: Attempt, key: string)
    ensures Feedbacks(Run(a, key)) == [FeedbackFor(a)]
  {
    var t := Run(a, key);
    var f := [FeedbackFor(a)];
    if a.Resolved? {
      assert Feedbacks(t[5..]) == [];
      assert Feedbacks(t[4..]) == [];
      if a.outcome == Success {
        assert Feedbacks(t[3..]) == [];
        assert Feedbacks(t[2..]) == f;
      } else {
        assert Feedbacks(t[3..]) == f;
        assert Feedbacks(t[2..]) == f;
      }
      assert Feedbacks(t[1..]) == f;
    } else {
      assert Feedbacks(t[1..]) == [];
    }
  }

  /** The loading bar is shown only in a resolved run, first, and is hidden
      again before the run ends. */
  lemma {:induction false} RunLoading(a: Attempt, key: string)
    ensures LoadingEvents(Run(a, key)) == if a.Resolved? then [LoadingShown, LoadingHidden] else []
    ensures a.Resolved? ==> Run(a, key)[..2] == [LoadingShown, Lookup(key)]
  {
    var t := Run(a, key);
    if a.Resolved? {
      var hidden := [LoadingHidden];
      assert LoadingEvents(t[5..]) == [];
      assert LoadingEvents(t[4..]) == [];
      if a.outcome == Success {
        assert LoadingEvents(t[3..]) == hidden;
        assert LoadingEvents(t[2..]) == hidden;
      } else {
        assert LoadingEvents(t[3..]) == [];
        assert LoadingEvents(t[2..]) == hidden;
      }
      assert LoadingEvents(t[1..]) == hidden;
    } else {
      assert LoadingEvents(t[1..]) == [];
    }
  }

  /** The password field is cleared on a wrong password and only then; the
      form shakes when the name is unknown and only then; the main page
      replaces the form on success and only then. */
  lemma {:induction false} RunSideEffects(a: Attempt, key: string)
    ensures PasswordCleared in Run(a, key) <==> a == Resolved(WrongPassword)
    ensures Shaken in Run(a, key) <==> a == Resolved(NotFound)
    ensures MainPageShown in Run(a, key) <==> a == Resolved(Success)
  {
  }

  /** A refused submission shows one warning and nothing else: no loading
      bar, no lookup. The name check wins: with too few name tokens the
      warning is about the name whatever the password. */
  lemma {:induction false} RefusalIsQuiet(m: CaseMapping, fullName: string, password: string,
                                          db: string -> Option<Student>)
    requires Validate(fullName, password) != Valid
    ensures Trace(m, fullName, password, db) ==
      [Notify(if |Words(fullName)| < MinNameWords then NameWarning else PasswordWarning, "warning")]
  {
    ValidateCases(fullName, password);
  }

  /** The password and the database are irrelevant to a short name. */
  lemma {:induction false} NameCheckFirst(m: CaseMapping, fullName: string, p1: string, p2: string,
                                          db1: string -> Option<Student>, db2: string -> Option<Student>)
    requires |Words(fullName)| < MinNameWords
    ensures Trace(m, fullName, p1, db1) == Trace(m, fullName, p2, db2) == [Notify(NameWarning, "warning")]
  {
    ValidateCases(fullName, p1);
    ValidateCases(fullName, p2);
  }

  /** A submission that passes both checks issues exactly one lookup, keyed
      by the title-cased stripped name; one that fails issues none. */
  lemma {:induction false} LookupOnlyWhenValid(m: CaseMapping, fullName: string, password: string,
                                               db: string -> Option<Student>)
    ensures Lookups(Trace(m, fullName, password, db)) ==
      if Validate(fullName, password) == Valid then [LookupKey(m, fullName)] else []
  {
    RunLookups(Evaluate(m, fullName, password, db), LookupKey(m, fullName));
  }

  /** A name typed as words joined by single spaces is looked up under the
      same words, each title-cased on its own. */
  lemma {:induction false} LookupKeyOfJoin(m: CaseMapping, ws: seq<string>)
    requires Coherent(m)
    requires forall i :: 0 <= i < |ws| ==> ws[i] != [] && NoSpace(ws[i])
    ensures LookupKey(m, JoinWords(ws)) == JoinWords(TitleWords(m, ws))
  {
    StripOfJoin(ws);
    TitleCaseOfJoin(m, ws);
  }

  /** Typing the three words of a stored name in any case that title-cases
      to the stored spelling finds the record, and the stored password then
      decides between success and a wrong password. */
  lemma {:induction false} JoinedNameFindsRecord(m: CaseMapping, ws: seq<string>, password: string,
                                                 db: string -> Option<Student>, record: Student)
    requires Coherent(m)
    requires |ws| >= MinNameWords
    requires forall i :: 0 <= i < |ws| ==> ws[i] != [] && NoSpace(ws[i])
    requires db(JoinWords(TitleWords(m, ws))) == Some(record)
    requires |Strip(password)| >= MinPasswordLength
    ensures Evaluate(m, JoinWords(ws), password, db) ==
      Resolved(if record.password == Strip(password) then Success else WrongPassword)
  {
    JoinedNamePasses(ws, password);
    LookupKeyOfJoin(m, ws);
    EvaluateFound(m, JoinWords(ws), password, db, record);
  }

  /** A lower-case ASCII word is title-cased by upper-casing its first letter. */
  lemma {:induction false} TitleCaseWord(w: string)
    requires w != []
    requires forall k :: 0 <= k < |w| ==> 'a' <= w[k] <= 'z'
    ensures TitleCase(Ascii, w) == [AsciiUpper(w[0])] + w[1..]
  {
    forall i | 0 <= i < |w|
      ensures TitleCase(Ascii, w)[i] == ([AsciiUpper(w[0])] + w[1..])[i]
    {
      TitleCaseAt(Ascii, w, i);
    }
  }

  /** Two tokens are refused as an incomplete name, whatever the password
      and the database. */
  lemma {:induction false} TwoWordsRefused(name: string, password: string, db: string -> Option<Student>)
    requires name == "OnlyTwo Tokens"
    ensures Evaluate(Ascii, name, password, db) == Refused(InvalidName)
  {
    var two := ["OnlyTwo", "Tokens"];
    PrintableHasNoSpace(two[0]);
    PrintableHasNoSpace(two[1]);
    assert two[1..] == ["Tokens"];
    assert JoinWords(two) == name;
    WordsOfJoin(two);
    ValidateCases(name, password);
  }

  /** The offsets, in hundredths of the form's width, of the not-found shake. */
  const ShakeStep := 2

  function ShakeOffsets(n: nat): (r: seq<int>)
    ensures |r| == n
    ensures forall i :: 0 <= i < n ==> r[i] == if i % 2 == 0 then -ShakeStep else ShakeStep
  {
    if n == 0 then [] else ShakeOffsets(n - 1) + [if (n - 1) % 2 == 0 then -ShakeStep else ShakeStep]
  }

  /** What one press of the button can change on the login page: the two
      input fields, the container offset and the offsets it has rendered, the
      handler's events, the page's control list, the banner `Message` holds,
      and the loading bar with the page's overlay list. */
  datatype Form = Form(fullName: string, password: string, offsetX: int, rendered: seq<int>,
                       events: seq<Event>, controls: seq<Control>, current: Option<Control>,
                       bar: OverlayState)

  /** The page at rest: one banner at most, the current one; the loading bar
      consistent with the overlay and shown exactly when `busy`; the form not
      displaced. */
  predicate Settled(f: Form, busy: bool) {
    && OnlyCurrent(f.controls, f.current)
    && Consistent(f.bar) && f.bar.visible == busy
    && f.offsetX == 0
  }

  /** `message.show(text, colorKey)` on the form's page. */
  function Banner(f: Form, text: string, colorKey: string): (g: Form) {
    var n := Notice(text, Palette(colorKey));
    f.(controls := WithoutCurrent(f.controls, f.current) + [n], current := Some(n))
  }

  /** The three-step shake, ending back at rest. */
  function AfterShake(f: Form): (g: Form) {
    f.(offsetX := 0, rendered := f.rendered + ShakeOffsets(3) + [0])
  }

  /** A failed input check (main.py:228-234): the warning, nothing else. */
  function AfterRefuse(f: Form, v: Verdict): (g: Form) {
    var fb := FeedbackFor(Refused(v));
    Banner(f, fb.text, fb.colorKey).(events := f.events + [Notify(fb.text, fb.colorKey)])
  }

  /** A failed lookup (main.py:241-256): hide the bar, show the error, then
      shake the form or clear the password field. */
  function AfterReject(f: Form, o: Outcome): (g: Form) {
    var fb := FeedbackFor(Resolved(o));
    var g := Banner(f.(bar := HideStep(f.bar)), fb.text, fb.colorKey);
    var h := if o == NotFound then AfterShake(g) else g.(password := "");
    h.(events := f.events + Ending(o))
  }

  /** A successful login (main.py:258-269): the success banner, the bar
      hidden, and the page's content replaced by the main view. */
  function AfterAdmit(f: Form): (g: Form) {
    Banner(f, SuccessNotice, "success").(
      bar := HideStep(f.bar), controls := [MainView], events := f.events + Ending(Success))
  }

  /** Everything after the input checks (main.py:236-269): show the bar, look
      `key` up, and conclude with outcome `o`. */
  function AfterLookup(f: Form, key: string, o: Outcome): (g: Form) {
    var g := f.(bar := ShowStep(f.bar), events := f.events + [LoadingShown, Lookup(key)]);
    if o == Success then AfterAdmit(g) else AfterReject(g, o)
  }

  /** One press of the login button (main.py:224-269) on the page `f`, with
      case tables `m` and the student lookup `db`. */
  function Press(f: Form, m: CaseMapping, db: string -> Option<Student>): (g: Form) {
    var v := Validate(f.fullName, f.password);
    if v != Valid then AfterRefuse(f, v)
    else
      var key := LookupKey(m, f.fullName);
      AfterLookup(f, key, Decide(db(key), Strip(f.password)))
  }

  /** What a press that ends in attempt `a`, with lookup key `key`, does to
      the page at rest `f`, leaving `g`. It records exactly the events of
      `Run`. The name field is unchanged, and the password field is emptied
      exactly on a wrong password. The overlay list and the hidden bar are as
      before. The form is back at rest, having shaken exactly when the name
      was not found. The banner is the attempt's own. Unless the login
      succeeded, the page keeps its other controls and shows only that
      banner. On success the page holds only the main view. */
  predicate PressedInto(f: Form, g: Form, a: Attempt, key: string) {
    var fb := FeedbackFor(a);
    && g.events == f.events + Run(a, key)
    && g.fullName == f.fullName
    && g.password == (if a == Resolved(WrongPassword) then "" else f.password)
    && g.bar == f.bar
    && g.offsetX == 0
    && g.rendered == f.rendered + (if a == Resolved(NotFound) then ShakeOffsets(3) + [0] else [])
    && g.current == Some(Notice(fb.text, Palette(fb.colorKey)))
    && (a != Resolved(Success) ==>
          && g.controls == WithoutCurrent(f.controls, f.current) + [g.current.value]
          && Settled(g, false))
    && (a == Resolved(Success) ==> g.controls == [MainView])
  }

  /** A refused press only replaces the banner and records it. */
  lemma {:induction false} RefuseEffects(f: Form, v: Verdict, key: string)
    requires Settled(f, false) && v != Valid
    ensures PressedInto(f, AfterRefuse(f, v), Refused(v), key)
  {
    var fb := FeedbackFor(Refused(v));
    ReplaceKeepsOneNotice(f.controls, f.current, Notice(fb.text, Palette(fb.colorKey)));
  }

  /** A press that reaches the lookup ends with the bar hidden again and the
      effects of its outcome. */
  lemma {:induction false} LookupEffects(f: Form, key: string, o: Outcome)
    requires Settled(f, false)
    ensures PressedInto(f, AfterLookup(f, key, o), Resolved(o), key)
  {
    var fb := FeedbackFor(Resolved(o));
    HideUndoesShow(f.bar);
    ShowStepConsistent(f.bar);
    if o != Success {
      ReplaceKeepsOneNotice(f.controls, f.current, Notice(fb.text, Palette(fb.colorKey)));
      HideStepConsistent(ShowStep(f.bar));
    }
  }

  /** One press on a page at rest has the effects of the attempt `Evaluate`
      decides. */
  lemma {:induction false} PressEffects(f: Form, m: CaseMapping, db: string -> Option<Student>)
    requires Settled(f, false)
    ensures PressedInto(f, Press(f, m, db), Evaluate(m, f.fullName, f.password, db),
                        LookupKey(m, f.fullName))
  {
    var v := Validate(f.fullName, f.password);
    var key := LookupKey(m, f.fullName);
    if v != Valid {
      EvaluateRefused(m, f.fullName, f.password, db);
      RefuseEffects(f, v, key);
    } else {
      EvaluateValid(m, f.fullName, f.password, db);
      LookupEffects(f, key, Decide(db(key), Strip(f.password)));
    }
  }

  /** `login_page` (main.py:171-295): the form's two input fields, its container
      offset, and the page, banner and loading bar it drives. */
  class LoginPage {
    const page: Page
    const message: Message
    const loading: LoadingOverlay
    /** Python's case tables, used by `str.title()`. */
    const cases: CaseMapping
    var fullName: string      // full_name_input.content.value
    var password: string      // password_input.content.value
    var offsetX: int          // container.offset.x, in hundredths
    /** The container offsets the page has rendered, in order. */
    ghost var rendered: seq<int>
    /** The handler's observable events, in order. */
    ghost var events: seq<Event>

    /** The state a press can change, as a value. */
    ghost function Snapshot(): (f: Form)
      reads this, page, message, loading
    {
      Form(fullName, password, offsetX, rendered, events, page.controls, message.current,
           OverlayState(loading.visible, page.overlay))
    }

    /** The helpers share the page, and the page is at rest with the bar
        shown (`busy`) or hidden. */
    ghost predicate Ready(busy: bool)
      reads this, page, message, loading
    {
      && message.page == page && loading.page == page
      && Settled(Snapshot(), busy)
    }

    ghost predicate Valid()
      reads this, page, message, loading
    {
      Ready(false)
    }

    constructor (page: Page, cases: CaseMapping)
      requires Notices(page.controls) == [] && ProgressBar !in page.overlay
      ensures Valid() && this.page == page && this.cases == cases
      ensures fresh(message) && fresh(loading)
      ensures fullName == "" && password == "" && events == [] && rendered == []
      ensures message.current == None
    {
      this.page := page;
      this.cases := cases;
      message := new Message(page);
      loading := new LoadingOverlay(page);
      fullName, password, offsetX := "", "", 0;
      rendered, events := [], [];
    }

    /** The not-found shake (main.py:245-250): three alternating offsets, each
        rendered, then back to rest. */
    method Shake()
      modifies this`offsetX, this`rendered
      ensures offsetX == 0
      ensures rendered == old(rendered) + ShakeOffsets(3) + [0]
    {
      for i := 0 to 3
        invariant rendered == old(rendered) + ShakeOffsets(i)
      {
        offsetX := if i % 2 == 0 then -ShakeStep else ShakeStep;
        rendered := rendered + [offsetX];
      }
      offsetX := 0;
      rendered := rendered + [offsetX];
    }

    /** `login(e)`: one press of the login button, with the lookup `db`. */
    method Login(db: string -> Option<Student>) returns (attempt: Attempt)
      requires Valid()
      modifies this, page, message, loading
      ensures attempt == Evaluate(cases, old(fullName), old(password), db)
      ensures Snapshot() == Press(old(Snapshot()), cases, db)
      ensures attempt != Resolved(Success) ==> Valid()
    {
      var verdict := Validate(fullName, password);
      if verdict != Verdict.Valid {
        EvaluateRefused(cases, fullName, password, db);
        attempt := Refused(verdict);
        Refuse(verdict);
        return;
      }
      var key := LookupKey(cases, fullName);
      var secret := Strip(password);
      EvaluateValid(cases, fullName, password, db);
      var outcome := Authenticate(key, secret, db);
      attempt := Resolved(outcome);
    }

    /** A failed input check (main.py:228-234): the warning banner, and nothing else. */
    method Refuse(verdict: Verdict)
      requires Valid() && verdict != Verdict.Valid
      modifies this`events, message, page`controls
      ensures Snapshot() == AfterRefuse(old(Snapshot()), verdict)
      ensures Valid()
    {
      var text := if verdict == InvalidName then NameWarning else PasswordWarning;
      message.Show(text, "warning");
      events := events + [Notify(text, "warning")];
    }

    /** The part of `login` after the checks pass (main.py:236-269): show the
        loading bar, look `key` up, and conclude. */
    method Authenticate(key: string, secret: string, db: string -> Option<Student>) returns (outcome: Outcome)
      requires Valid()
      modifies this, page, message, loading
      ensures outcome == Decide(db(key), secret)
      ensures Snapshot() == AfterLookup(old(Snapshot()), key, outcome)
      ensures outcome != Success ==> Valid()
    {
      ShowStepConsistent(loading.State());
      loading.Show();
      events := events + [LoadingShown];
      var found := db(key);
      events := events + [Lookup(key)];
      outcome := Decide(found, secret);
      if outcome == Success {
        Admit();
      } else {
        Reject(outcome);
      }
    }

    /** The two failure branches (main.py:241-256): hide the bar, show the
        error, then shake the form (not found) or clear the password field
        (wrong password). */
    method Reject(outcome: Outcome)
      requires Ready(true) && outcome != Success
      modifies this, page`controls, page`overlay, message, loading
      ensures Snapshot() == AfterReject(old(Snapshot()), outcome)
      ensures Valid()
    {
      ghost var before := events;
      loading.Hide();
      events := events + [LoadingHidden];
      var f := FeedbackFor(Resolved(outcome));
      message.Show(f.text, f.colorKey);
      events := events + [Notify(f.text, f.colorKey)];
      if outcome == NotFound {
        Shake();
        events := events + [Shaken];
      } else {
        password := "";
        events := events + [PasswordCleared];
      }
      assert events == before + Ending(outcome);
    }

    /** The success branch (main.py:258-269): the success banner, then the bar
        is hidden and the page's content is replaced by the main view. */
    method Admit()
      requires Ready(true)
      modifies this`events, page`controls, page`overlay, message, loading
      ensures Snapshot() == AfterAdmit(old(Snapshot()))
    {
      ghost var before := events;
      message.Show(SuccessNotice, "success");
      events := events + [Notify(SuccessNotice, "success")];
      // the exit animation (scale, opacity, rotation, a 0.5 s pause) leaves no state behind
      loading.Hide();
      events := events + [LoadingHidden];
      page.controls := [];                          // page.clean()
      page.controls := page.controls + [MainView];  // page.add(main_page(page))
      events := events + [MainPageShown];
      assert events == before + Ending(Success);
    }
  }
}
