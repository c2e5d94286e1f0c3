/** Command-line flag extraction for the development sessions: pick the value
    that follows a flag in the session's positional arguments, or a default. */
module Noxfile {

  /** `list.index`: the position of the first occurrence of `x` in `s`. */
  function IndexOf(s: seq<string>, x: string): (i: nat)
    requires x in s
    ensures i < |s| && s[i] == x
    ensures forall j :: 0 <= j < i ==> s[j] != x
  {
    if s[0] == x then 0 else 1 + IndexOf(s[1..], x)
  }

  /** `_posarg`: the pair `[flag, value]`, where the value is the argument
      right after the first occurrence of `flag`, or `default` when the flag
      is absent or is the last argument. */
  function PosArg(default: string, flag: string, posargs: seq<string>): (r: seq<string>)
    ensures |r| == 2 && r[0] == flag
    ensures flag !in posargs ==> r[1] == default
    ensures forall i :: 0 <= i < |posargs| && posargs[i] == flag
                        && (forall j :: 0 <= j < i ==> posargs[j] != flag)
                        ==> r[1] == (if i + 1 < |posargs| then posargs[i + 1] else default)
  {
    if flag in posargs then
      var i := IndexOf(posargs, flag);
      if i + 1 < |posargs| then [flag, posargs[i + 1]] else [flag, default]
    else
      [flag, default]
  }

  /** Appending arguments after a found flag's position does not move its
      first occurrence. */
  lemma {:induction false} IndexOfAppend(front: seq<string>, back: seq<string>, x: string)
    requires x in front
    ensures x in front + back && IndexOf(front + back, x) == IndexOf(front, x)
  {
    if front[0] != x {
      assert (front + back)[1..] == front[1..] + back;
      IndexOfAppend(front[1..], back, x);
    }
  }

  /** Only the first occurrence matters: once the flag and its value have
      been seen, whatever follows (later copies of the flag included) leaves
      the result unchanged. */
  lemma FirstOccurrenceWins(default: string, flag: string, front: seq<string>, back: seq<string>)
    requires flag in front && IndexOf(front, flag) + 1 < |front|
    ensures PosArg(default, flag, front + back) == PosArg(default, flag, front)
  {
    IndexOfAppend(front, back, flag);
  }

  /** A flag given last has no value: the index error is swallowed and the
      default is used. */
  lemma TrailingFlagUsesDefault(default: string, flag: string, before: seq<string>)
    requires flag !in before
    ensures PosArg(default, flag, before + [flag]) == [flag, default]
  {
  }
}
