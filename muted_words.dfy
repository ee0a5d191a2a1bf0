/**
 * The muted-word set of the user settings and the two calls that edit it
 * in place, `add_muted_words` and `remove_muted_words`
 * (index.js:537-589). Each validates the words one at a time and throws at
 * the first bad one, after the earlier words have already been applied.
 */
module MutedWords {
  import opened Wrappers

  /** The argument: an array of words, or one string split at every space. */
  datatype Words = List(items: seq<string>) | Text(text: string)

  /** Why a call throws. */
  datatype WordError = NotLoggedIn | EmptyWord(index: nat) | NotSingleWord(word: string)

  /** The decimal digits of `n`, as a template literal prints a non-negative integer. */
  function Decimal(n: nat): (s: string)
    ensures |s| >= 1 && (n >= 10 ==> s[0] != '0')
    ensures forall i :: 0 <= i < |s| ==> '0' <= s[i] <= '9'
  {
    var d := ['0' + (n % 10) as char];
    if n < 10 then d else Decimal(n / 10) + d
  }

  /** The string each error is thrown as. */
  function Message(e: WordError): (s: string)
  {
    match e
    case NotLoggedIn => "Please login first."
    case EmptyWord(i) => "word at index " + Decimal(i) + " cannot be empty."
    case NotSingleWord(w) => "this word ('" + w + "') must be single word."
  }

  /**
   * `String.prototype.split(sep)` for a one-character separator: every
   * occurrence cuts, so adjacent, leading and trailing separators yield
   * empty pieces, and the empty string yields one empty piece.
   */
  function Split(s: string, sep: char): (r: seq<string>)
    ensures |r| >= 1
    ensures forall i :: 0 <= i < |r| ==> sep !in r[i]
    decreases |s|
  {
    if |s| == 0 then [""]
    else
      var rest := Split(s[1..], sep);
      if s[0] == sep then [""] + rest
      else [[s[0]] + rest[0]] + rest[1..]
  }

  /** `Array.prototype.join(sep)`. */
  function Join(ws: seq<string>, sep: char): (s: string)
    requires |ws| >= 1
  {
    if |ws| == 1 then ws[0] else ws[0] + [sep] + Join(ws[1..], sep)
  }

  /** Splitting loses nothing: joining the pieces back gives the original text. */
  lemma {:induction false} SplitJoin(s: string, sep: char)
    ensures Join(Split(s, sep), sep) == s
  {
    if |s| > 0 {
      var rest := Split(s[1..], sep);
      SplitJoin(s[1..], sep);
      if s[0] == sep {
        assert Split(s, sep)[1..] == rest;
      } else {
        var r := Split(s, sep);
        if |rest| == 1 {
          assert r == [[s[0]] + rest[0]];
        } else {
          assert r[1..] == rest[1..];
          assert Join(rest, sep) == rest[0] + [sep] + Join(rest[1..], sep);
        }
      }
    }
  }

  /** The words the loop walks through. */
  function Items(words: Words): (ws: seq<string>)
  {
    match words
    case List(items) => items
    case Text(text) => Split(text, ' ')
  }

  /** The check the loop makes on word `i`; the string form only rejects empty words. */
  function Check(words: Words, i: nat): (e: Option<WordError>)
    requires i < |Items(words)|
    ensures e.Some? <==> Items(words)[i] == "" || (words.List? && ' ' in Items(words)[i])
  {
    var w := Items(words)[i];
    if w == "" then Some(EmptyWord(i))
    else if words.List? && ' ' in w then Some(NotSingleWord(w))
    else None
  }

  /** The index of the first word that fails its check, or the number of words. */
  function FirstInvalid(words: Words): (k: nat)
    ensures k <= |Items(words)|
    ensures forall i :: 0 <= i < k ==> Check(words, i).None?
    ensures k < |Items(words)| ==> Check(words, k).Some?
  {
    FirstInvalidFrom(words, 0)
  }

  function FirstInvalidFrom(words: Words, i: nat): (k: nat)
    requires i <= |Items(words)|
    ensures i <= k <= |Items(words)|
    ensures forall j :: i <= j < k ==> Check(words, j).None?
    ensures k < |Items(words)| ==> Check(words, k).Some?
    decreases |Items(words)| - i
  {
    if i == |Items(words)| then i
    else if Check(words, i).Some? then i
    else FirstInvalidFrom(words, i + 1)
  }

  /** The string form never hits the space check: no split piece holds a space. */
  lemma TextNeverNotSingleWord(text: string, i: nat)
    requires i < |Items(Text(text))|
    ensures Check(Text(text), i) == None || Check(Text(text), i) == Some(EmptyWord(i))
  {
  }

  /** The set of the words before index `k`. */
  function Prefix(ws: seq<string>, k: nat): (s: set<string>)
    requires k <= |ws|
    ensures forall w :: w in s <==> exists i :: 0 <= i < k && ws[i] == w
  {
    set i | 0 <= i < k :: ws[i]
  }

  /** The set after `add_muted_words`, whether it throws or not. */
  function AfterAdd(banned: set<string>, words: Words): (r: set<string>)
    ensures banned <= r
    ensures forall w :: w in r - banned ==> w != "" && w in Items(words)
    ensures forall i :: 0 <= i < FirstInvalid(words) ==> Items(words)[i] in r
    ensures forall w :: w in r - banned ==>
      exists i :: 0 <= i < FirstInvalid(words) && Items(words)[i] == w
  {
    var ws, k := Items(words), FirstInvalid(words);
    assert forall i :: 0 <= i < k ==> ws[i] != "" by {
      forall i | 0 <= i < k ensures ws[i] != "" {
        assert Check(words, i).None?;
      }
    }
    banned + Prefix(ws, k)
  }

  /** The set after `remove_muted_words`, whether it throws or not. */
  function AfterRemove(banned: set<string>, words: Words): (r: set<string>)
    ensures r <= banned
    ensures forall i :: 0 <= i < FirstInvalid(words) ==> Items(words)[i] !in r
    ensures forall w :: w in banned - r ==>
      exists i :: 0 <= i < FirstInvalid(words) && Items(words)[i] == w
  {
    banned - Prefix(Items(words), FirstInvalid(words))
  }

  /** Adding the same words again changes nothing (the store is a `Set`). */
  lemma AddIdempotent(banned: set<string>, words: Words)
    ensures AfterAdd(AfterAdd(banned, words), words) == AfterAdd(banned, words)
  {
  }

  /** Removing words that were just added restores the set, when none were there before. */
  lemma RemoveUndoesAdd(banned: set<string>, words: Words)
    requires forall i :: 0 <= i < |Items(words)| ==> Items(words)[i] !in banned
    ensures AfterRemove(AfterAdd(banned, words), words) == banned
  {
  }

  /** The user settings' `bannedWords` set and the session token. */
  class User {
    var token: string
    var bannedWords: set<string>

    constructor (token: string, bannedWords: set<string>)
      ensures this.token == token && this.bannedWords == bannedWords
    {
      this.token := token;
      this.bannedWords := bannedWords;
    }

    /**
     * `add_muted_words`: adds the words in order and throws at the first bad
     * one, leaving the earlier words added. On success the result is the
     * set sent to `update_settings`.
     */
    method AddMutedWords(words: Words) returns (r: Result<set<string>, string>)
      modifies this`bannedWords
      ensures old(token) == "" ==> r == Err(Message(NotLoggedIn)) && bannedWords == old(bannedWords)
      ensures old(token) != "" ==> bannedWords == AfterAdd(old(bannedWords), words)
      ensures old(token) != "" ==>
        r == (if FirstInvalid(words) < |Items(words)|
              then Err(Message(Check(words, FirstInvalid(words)).value)) else Ok(bannedWords))
    {
      if token == "" {
        return Err(Message(NotLoggedIn));
      }
      var ws := Items(words);
      var a := 0;
      while a < |ws|
        invariant 0 <= a <= FirstInvalid(words)
        invariant bannedWords == old(bannedWords) + Prefix(ws, a)
      {
        var e := Check(words, a);
        if e.Some? {
          return Err(Message(e.value));
        }
        bannedWords := bannedWords + {ws[a]};
        a := a + 1;
      }
      r := Ok(bannedWords);
    }

    /**
     * `remove_muted_words`: the same walk, deleting instead of adding.
     */
    method RemoveMutedWords(words: Words) returns (r: Result<set<string>, string>)
      modifies this`bannedWords
      ensures old(token) == "" ==> r == Err(Message(NotLoggedIn)) && bannedWords == old(bannedWords)
      ensures old(token) != "" ==> bannedWords == AfterRemove(old(bannedWords), words)
      ensures old(token) != "" ==>
        r == (if FirstInvalid(words) < |Items(words)|
              then Err(Message(Check(words, FirstInvalid(words)).value)) else Ok(bannedWords))
    {
      if token == "" {
        return Err(Message(NotLoggedIn));
      }
      var ws := Items(words);
      var a := 0;
      while a < |ws|
        invariant 0 <= a <= FirstInvalid(words)
        invariant bannedWords == old(bannedWords) - Prefix(ws, a)
      {
        var e := Check(words, a);
        if e.Some? {
          return Err(Message(e.value));
        }
        bannedWords := bannedWords - {ws[a]};
        a := a + 1;
      }
      r := Ok(bannedWords);
    }
  }
}
