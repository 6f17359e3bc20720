/** Interpretation of the answers typed at the two yes/no prompts of the
    bootstrap (the runtime-install prompt and the initialize-project prompt).
    Both prompts lower-case the answer and accept exactly "yes" or "y". */
module Answers {

  /** The lower-case form of one character: the ASCII capitals 'A'..'Z'
      map to 'a'..'z', every other character is left as it is. */
  function LowerChar(c: char): (r: char)
  {
    if 'A' <= c <= 'Z' then (c as int - 'A' as int + 'a' as int) as char else c
  }

  /** String lower-casing, character by character. */
  function ToLower(s: string): (r: string)
    ensures |r| == |s|
    ensures forall k :: 0 <= k < |s| ==> r[k] == LowerChar(s[k])
  {
    if s == [] then [] else [LowerChar(s[0])] + ToLower(s[1..])
  }

  /** The test both prompts apply: the lower-cased answer is "yes" or "y".
      Anything else, the empty answer included, is a refusal. */
  predicate IsAffirmative(answer: string)
  {
    ToLower(answer) == "yes" || ToLower(answer) == "y"
  }

  /** Reference definition of the accepted answers, spelled out letter by
      letter: "y" or "yes" in any mix of upper and lower case. */
  predicate IsYesSpelling(a: string)
  {
    (|a| == 1 && a[0] in "yY") ||
    (|a| == 3 && a[0] in "yY" && a[1] in "eE" && a[2] in "sS")
  }

  /** The prompts accept exactly the ten spellings of "y" and "yes", as
      values returned by the prompt call. */
  lemma AffirmativeSpellings(a: string)
    ensures IsAffirmative(a) <==> IsYesSpelling(a)
  {
  }

  /** Worked instances of `AffirmativeSpellings`: "no", "n" and the empty
      answer are refusals. */
  lemma RefusalsDecline()
    ensures !IsAffirmative("") && !IsAffirmative("no") && !IsAffirmative("n")
  {
  }
}
