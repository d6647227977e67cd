/** The topic picker (frontend/src/components/LLABSelector.tsx): the selected
    LLAB numbers, kept as a list, and the quiz mode, plus the start guard. */
module LlabSelector {
  import opened Results

  /** The three values the quiz-mode drop-down offers. */
  datatype QuizMode = Mixed | StaticOnly | AiOnly

  /** The wire name of a quiz mode. */
  function ModeName(mode: QuizMode): string {
    match mode
    case Mixed => "mixed"
    case StaticOnly => "static_only"
    case AiOnly => "ai_only"
  }

  /** The quiz mode an option value names, if any: the option values and the
      modes correspond one to one. */
  function ModeOf(value: string): (r: Option<QuizMode>)
    ensures forall mode :: r == Some(mode) <==> value == ModeName(mode)
  {
    if value == "mixed" then Some(Mixed)
    else if value == "static_only" then Some(StaticOnly)
    else if value == "ai_only" then Some(AiOnly)
    else None
  }

  const AllLlabs: seq<int> := [1, 2, 3, 4, 5, 6, 7, 8, 9, 10, 11, 12]

  predicate Ascending(s: seq<int>) {
    forall i, j :: 0 <= i < j < |s| ==> s[i] <= s[j]
  }

  predicate StrictlyAscending(s: seq<int>) {
    forall i, j :: 0 <= i < j < |s| ==> s[i] < s[j]
  }

  /** `x` placed into a list after the leading elements not above it. */
  function Insert(s: seq<int>, x: int): (r: seq<int>)
    ensures multiset(r) == multiset(s) + multiset{x}
    decreases |s|
  {
    if s == [] || x < s[0] then
      [x] + s
    else
      assert s == [s[0]] + s[1..];
      [s[0]] + Insert(s[1..], x)
  }

  /** Inserting into an ascending list keeps it ascending. */
  lemma {:induction false} InsertAscending(s: seq<int>, x: int)
    requires Ascending(s)
    ensures Ascending(Insert(s, x))
    decreases |s|
  {
    if s != [] && x >= s[0] {
      var rest := Insert(s[1..], x);
      InsertAscending(s[1..], x);
      forall k | 0 <= k < |rest| ensures s[0] <= rest[k] {
        assert rest[k] in multiset(rest);
        assert rest[k] == x || rest[k] in s[1..];
      }
    }
  }

  /** Inserting a new value into a strictly ascending list keeps it strictly
      ascending. */
  lemma {:induction false} InsertStrict(s: seq<int>, x: int)
    requires StrictlyAscending(s) && x !in s
    ensures StrictlyAscending(Insert(s, x))
    decreases |s|
  {
    if s != [] && x >= s[0] {
      var rest := Insert(s[1..], x);
      assert x != s[0];
      InsertStrict(s[1..], x);
      forall k | 0 <= k < |rest| ensures s[0] < rest[k] {
        assert rest[k] in multiset(rest);
      }
    }
  }

  /** `Array.prototype.sort((a, b) => a - b)`: an ascending permutation. */
  function Sort(s: seq<int>): (r: seq<int>)
    ensures Ascending(r)
    ensures multiset(r) == multiset(s)
    decreases |s|
  {
    if s == [] then []
    else
      assert s == s[..|s| - 1] + [s[|s| - 1]];
      InsertAscending(Sort(s[..|s| - 1]), s[|s| - 1]);
      Insert(Sort(s[..|s| - 1]), s[|s| - 1])
  }

  /** No value occurs twice. */
  predicate Distinct(s: seq<int>) {
    forall i, j :: 0 <= i < j < |s| ==> s[i] != s[j]
  }

  /** Sorting a list without repeated values gives a strictly ascending list. */
  lemma {:induction false} SortDistinct(s: seq<int>)
    requires Distinct(s)
    ensures StrictlyAscending(Sort(s))
    decreases |s|
  {
    if s != [] {
      var init := s[..|s| - 1];
      SortDistinct(init);
      assert s[|s| - 1] !in multiset(Sort(init));
      InsertStrict(Sort(init), s[|s| - 1]);
    }
  }

  /** `prev.filter(n => n !== num)`. */
  function Remove(s: seq<int>, n: int): (r: seq<int>)
    ensures forall m :: m in r <==> m in s && m != n
    ensures StrictlyAscending(s) ==> StrictlyAscending(r)
    decreases |s|
  {
    if s == [] then []
    else
      var rest := Remove(s[1..], n);
      assert forall m :: m in s <==> m == s[0] || m in s[1..];
      if s[0] == n then rest
      else
        assert StrictlyAscending(s) ==> forall k :: 0 <= k < |rest| ==> s[0] < rest[k] by {
          if StrictlyAscending(s) {
            forall k | 0 <= k < |rest| ensures s[0] < rest[k] {
              assert rest[k] in s[1..];
            }
          }
        }
        [s[0]] + rest
  }

  /** The `toggleLLAB` updater: remove the number if present, otherwise add
      it and re-sort. After a toggle, `n` is selected exactly when it was not
      before, and no other number changes membership. */
  function Toggle(prev: seq<int>, n: int): (r: seq<int>)
    ensures n in r <==> n !in prev
    ensures forall m :: m != n ==> (m in r <==> m in prev)
  {
    if n in prev then Remove(prev, n)
    else
      var sorted := Sort(prev + [n]);
      assert forall m :: m in sorted <==> m in multiset(prev + [n]) by {
        forall m ensures m in sorted <==> m in multiset(prev + [n]) {
          assert m in sorted <==> m in multiset(sorted);
        }
      }
      sorted
  }

  /** A strictly ascending selection stays strictly ascending. */
  lemma ToggleKeepsAscending(prev: seq<int>, n: int)
    requires StrictlyAscending(prev)
    ensures StrictlyAscending(Toggle(prev, n))
  {
    if n !in prev {
      SortDistinct(prev + [n]);
    }
  }

  /** Two strictly ascending lists with the same members are equal. */
  lemma {:induction false} AscendingUnique(s: seq<int>, t: seq<int>)
    requires StrictlyAscending(s) && StrictlyAscending(t)
    requires forall m :: m in s <==> m in t
    ensures s == t
    decreases |s|
  {
    if s != [] {
      assert s[0] in s;
    }
    if t != [] {
      assert t[0] in t;
    }
    if s != [] && t != [] {
      assert s[0] in t && t[0] in s;
      assert s[0] == t[0];
      forall m ensures m in s[1..] <==> m in t[1..] {
        assert m in s[1..] <==> m in s && m != s[0];
        assert m in t[1..] <==> m in t && m != t[0];
      }
      AscendingUnique(s[1..], t[1..]);
      assert s == [s[0]] + s[1..] && t == [t[0]] + t[1..];
    }
  }

  /** On a strictly ascending selection, toggling the same number twice
      restores the selection. */
  lemma ToggleTwice(prev: seq<int>, n: int)
    requires StrictlyAscending(prev)
    ensures Toggle(Toggle(prev, n), n) == prev
  {
    var once := Toggle(prev, n);
    ToggleKeepsAscending(prev, n);
    ToggleKeepsAscending(once, n);
    AscendingUnique(Toggle(once, n), prev);
  }

  /** The arguments `handleStart` passes to `onStart`. */
  datatype StartCall = StartCall(llabNumbers: seq<int>, quizMode: QuizMode)

  class Selector {
    var selected: seq<int>
    var quizMode: QuizMode

    /** The selection is strictly ascending, hence free of repeats. */
    ghost predicate Valid()
      reads this
    {
      StrictlyAscending(selected)
    }

    /** The initial state: nothing selected, mode `mixed`. */
    constructor ()
      ensures Valid() && selected == [] && quizMode == Mixed
    {
      selected := [];
      quizMode := Mixed;
    }

    /** `toggleLLAB(num)`. */
    method ToggleLlab(n: int)
      requires Valid()
      modifies this
      ensures Valid()
      ensures selected == Toggle(old(selected), n) && quizMode == old(quizMode)
      ensures n in selected <==> n !in old(selected)
      ensures forall m :: m != n ==> (m in selected <==> m in old(selected))
    {
      ToggleKeepsAscending(selected, n);
      selected := Toggle(selected, n);
    }

    /** `selectAll`. */
    method SelectAll()
      requires Valid()
      modifies this
      ensures Valid()
      ensures selected == AllLlabs && quizMode == old(quizMode)
    {
      selected := AllLlabs;
    }

    /** `clearAll`. */
    method ClearAll()
      requires Valid()
      modifies this
      ensures Valid()
      ensures selected == [] && quizMode == old(quizMode)
    {
      selected := [];
    }

    /** The drop-down's `onChange`: `value` is the chosen option's value,
        cast to a quiz mode; the drop-down offers only the three mode names. */
    method SetQuizMode(value: string)
      requires ModeOf(value).Some?
      requires Valid()
      modifies this
      ensures Valid()
      ensures ModeName(quizMode) == value && selected == old(selected)
    {
      quizMode := ModeOf(value).value;
    }

    /** `handleStart`: an empty selection never reaches `onStart`; otherwise
        `onStart` receives the current selection, non-empty and strictly
        ascending, and the current mode. */
    method HandleStart() returns (call: Option<StartCall>)
      requires Valid()
      ensures call.None? <==> selected == []
      ensures call.Some? ==> call.value == StartCall(selected, quizMode)
      ensures call.Some? ==> |call.value.llabNumbers| >= 1 && StrictlyAscending(call.value.llabNumbers)
    {
      if |selected| == 0 {
        return None;
      }
      call := Some(StartCall(selected, quizMode));
    }
  }
}
