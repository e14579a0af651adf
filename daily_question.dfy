/** The daily question page: a fixed list of fifteen questions, a deterministic choice of one per
    date key, and a stored {date, question} record that keeps a day's question (or the one the
    user shuffled to) until the date changes. */
module DailyQuestion {

  datatype Option<T> = None | Some(value: T)

  /** The stored record; the JSON text in local storage is modelled by its value. */
  datatype Saved = Saved(date: string, question: string)

  /** QUESTIONS, with the typographic apostrophes and quotes of the original. */
  const Questions: seq<string> := [
    "What is one thing you\U{2019}re grateful for today?",
    "What would you do today if you weren\U{2019}t afraid?",
    "What\U{2019}s something you\U{2019}ve been avoiding, and why?",
    "What\U{2019}s one small win you can celebrate today?",
    "Who is someone you should appreciate more?",
    "What\U{2019}s a habit that\U{2019}s helping you right now?",
    "What\U{2019}s one thing you need to let go of?",
    "What do you want more of in your life?",
    "What did you learn recently that changed your perspective?",
    "What\U{2019}s one promise you can keep to yourself today?",
    "What\U{2019}s something that made you smile recently?",
    "If today had a theme, what would it be?",
    "What\U{2019}s one thing you can simplify in your life?",
    "What does \U{201C}success\U{201D} mean to you right now?",
    "What\U{2019}s one belief you\U{2019}ve outgrown?"
  ]

  const HashModulus: int := 100000

  /** Every question is non-empty, so a stored question always counts as present. */
  lemma QuestionsNonEmpty()
    ensures |Questions| == 15
    ensures forall i :: 0 <= i < |Questions| ==> Questions[i] != ""
  {
  }

  /** One step of the hash: multiply by 31, add the character code, keep the last five digits. */
  function HashStep(h: int, c: char): int
  {
    (h * 31 + c as int) % HashModulus
  }

  /** The hash of a key, folded from the left as the loop does. */
  function DailyHash(key: string): (h: int)
    ensures 0 <= h < HashModulus
    decreases |key|
  {
    if key == [] then 0 else HashStep(DailyHash(key[..|key| - 1]), key[|key| - 1])
  }

  /** The same hash without the intermediate reductions: the key read as a base-31 number. */
  function Base31(key: string): int
    decreases |key|
  {
    if key == [] then 0 else Base31(key[..|key| - 1]) * 31 + key[|key| - 1] as int
  }

  lemma AddMultiple(x: int, k: int)
    ensures (x + k * HashModulus) % HashModulus == x % HashModulus
  {
  }

  /** Reducing after every step gives the same result as reducing once at the end. */
  lemma {:induction false} DailyHashIsBase31(key: string)
    ensures DailyHash(key) == Base31(key) % HashModulus
    decreases |key|
  {
    if key != [] {
      var init := key[..|key| - 1];
      var c := key[|key| - 1] as int;
      DailyHashIsBase31(init);
      var b := Base31(init);
      var q := b / HashModulus;
      assert b == q * HashModulus + b % HashModulus;
      assert b * 31 + c == (b % HashModulus) * 31 + c + (q * 31) * HashModulus;
      AddMultiple((b % HashModulus) * 31 + c, q * 31);
    }
  }

  /** The question index for a date key: the hash modulo the number of questions. */
  function DailyIndex(key: string): (i: int)
    ensures 0 <= i < |Questions|
    ensures key == [] ==> i == 0
    ensures i == Base31(key) % HashModulus % |Questions|
  {
    DailyHashIsBase31(key);
    DailyHash(key) % |Questions|
  }

  /** getDailyIndex, with its loop over the characters of the key. */
  method GetDailyIndex(key: string) returns (index: int)
    ensures index == DailyIndex(key)
    ensures 0 <= index < |Questions|
  {
    var hash := 0;
    var i := 0;
    while i < |key|
      invariant 0 <= i <= |key|
      invariant 0 <= hash < HashModulus
      invariant hash == DailyHash(key[..i])
    {
      assert key[..i + 1][..i] == key[..i];
      hash := (hash * 31 + key[i] as int) % HashModulus;
      i := i + 1;
    }
    assert key[..|key|] == key;
    index := hash % |Questions|;
  }

  /** The stored record counts for today when its date is today's key and its question is
      non-empty. */
  predicate StoredFor(saved: Option<Saved>, today: string)
  {
    saved.Some? && saved.value.date == today && saved.value.question != ""
  }

  /** The outcome of loadDailyQuestion: the question shown and the record left in storage. */
  function Load(saved: Option<Saved>, today: string): (r: (string, Option<Saved>))
    ensures StoredFor(saved, today) ==> r == (saved.value.question, saved)
    ensures !StoredFor(saved, today) ==>
              r.0 == Questions[DailyIndex(today)] && r.1 == Some(Saved(today, r.0))
    ensures r.0 != "" && StoredFor(r.1, today)
  {
    QuestionsNonEmpty();
    if StoredFor(saved, today) then (saved.value.question, saved)
    else
      var q := Questions[DailyIndex(today)];
      (q, Some(Saved(today, q)))
  }

  /** Loading twice on the same day shows the same question and leaves the same record. */
  lemma LoadIdempotent(saved: Option<Saved>, today: string)
    ensures var (q, s) := Load(saved, today);
            Load(s, today) == (q, s)
  {
  }

  /** A new day replaces whatever was stored by that day's own question. */
  lemma LoadOnNewDay(saved: Option<Saved>, yesterday: string, today: string)
    requires StoredFor(saved, yesterday) && yesterday != today
    ensures Load(saved, today).0 == Questions[DailyIndex(today)]
  {
  }

  /** The index a shuffle picks from a draw r in [0, 1): floor(r * 15). */
  function ShuffleIndex(r: real): (i: int)
    requires 0.0 <= r < 1.0
    ensures 0 <= i < |Questions|
    ensures i as real <= r * 15.0 < i as real + 1.0
  {
    (r * 15.0).Floor
  }

  /** The local storage slot of the page. */
  class Store {
    var saved: Option<Saved>

    constructor (initial: Option<Saved>)
      ensures saved == initial
    {
      saved := initial;
    }

    /** loadDailyQuestion for today's key. */
    method LoadDailyQuestion(today: string) returns (question: string)
      modifies this
      ensures StoredFor(old(saved), today) ==> question == old(saved).value.question && saved == old(saved)
      ensures !StoredFor(old(saved), today) ==>
                question == Questions[DailyIndex(today)] && saved == Some(Saved(today, question))
      ensures (question, saved) == Load(old(saved), today)
    {
      if saved.Some? && saved.value.date == today && saved.value.question != "" {
        return saved.value.question;
      }
      var index := GetDailyIndex(today);
      question := Questions[index];
      saved := Some(Saved(today, question));
    }

    /** shuffleTodayQuestion with its draw r, followed by the render that reloads the question:
        the shuffled question is stored for today and is the one shown. */
    method ShuffleTodayQuestion(today: string, r: real) returns (shown: string)
      requires 0.0 <= r < 1.0
      modifies this
      ensures saved == Some(Saved(today, Questions[ShuffleIndex(r)]))
      ensures shown == Questions[ShuffleIndex(r)]
    {
      var randomIndex := (r * 15.0).Floor;
      var question := Questions[randomIndex];
      saved := Some(Saved(today, question));
      QuestionsNonEmpty();
      shown := LoadDailyQuestion(today);
    }
  }
}
