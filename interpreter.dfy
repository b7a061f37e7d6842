/**
 * backend/commandInterpreter.js after the language-model call: the reply
 * text is trimmed, code fences are stripped, the text is decoded as JSON
 * (an abstract partial function here), and each element of the decoded
 * array is normalised into a command; any failure yields one conversation
 * command. Also the helpers isQuestion, extractAmount and validateCommand.
 */
module Interpreter {
  import opened Js

  /** A normalised command `{action, confidence, data, originalInput}`. */
  datatype Command = Command(action: Json, confidence: Json, data: Json, originalInput: string)

  // ---------------------------------------------------------------- code fences

  const Fence := "```"
  const JsonFence := "```json"

  /**
   * `s.replace(/<marker>\n?/g, "")` for a literal marker: scanning from the
   * left, each occurrence is dropped together with one newline right after it.
   */
  function RemoveMarker(s: string, marker: string): (r: string)
    requires marker != ""
    ensures |r| <= |s|
    decreases |s|
  {
    if StartsWith(s, marker) then
      var rest := s[|marker|..];
      if rest != [] && rest[0] == '\n' then RemoveMarker(rest[1..], marker) else RemoveMarker(rest, marker)
    else if s == [] then []
    else [s[0]] + RemoveMarker(s[1..], marker)
  }

  /** The fence handling applied to the trimmed reply before it is decoded. */
  function StripFences(responseText: string): string {
    if Contains(responseText, JsonFence) then Trim(RemoveMarker(RemoveMarker(responseText, JsonFence), Fence))
    else if Contains(responseText, Fence) then Trim(RemoveMarker(responseText, Fence))
    else responseText
  }

  /** What survives the removal of "```" can begin with a backtick only if the input did. */
  lemma RemoveFenceHead(s: string)
    ensures RemoveMarker(s, Fence) != [] && RemoveMarker(s, Fence)[0] == '`' ==> s != [] && s[0] == '`'
  {
  }

  /**
   * A character that is kept starts no "```" in the result: a kept backtick
   * is never followed by a removed fence, or the fence would have begun there.
   */
  lemma KeptHeadStartsNoFence(s: string)
    requires s != [] && !StartsWith(s, Fence)
    ensures !StartsWith(RemoveMarker(s, Fence), Fence)
  {
    RemoveFenceHead(s[1..]);
    if |s| >= 2 && !StartsWith(s[1..], Fence) {
      assert s[1..][1..] == s[2..];
      RemoveFenceHead(s[2..]);
    }
  }

  /** One more character in front adds an occurrence only at the front. */
  lemma ConsAddsOnlyAtFront(c: char, r: string, m: string)
    requires !Contains(r, m) && !StartsWith([c] + r, m)
    ensures !Contains([c] + r, m)
  {
    if Contains([c] + r, m) {
      var i :| 0 <= i <= |[c] + r| - |m| && OccursAt([c] + r, m, i);
      if i > 0 {
        assert ([c] + r)[i..i + |m|] == r[i - 1..i - 1 + |m|];
        assert OccursAt(r, m, i - 1);
      }
    }
  }

  /** Removing every "```" leaves none behind, even where removed text joined its neighbours. */
  lemma {:induction false} RemoveFenceComplete(s: string)
    ensures !Contains(RemoveMarker(s, Fence), Fence)
    decreases |s|
  {
    if StartsWith(s, Fence) {
      var rest := s[3..];
      if rest != [] && rest[0] == '\n' { RemoveFenceComplete(rest[1..]); } else { RemoveFenceComplete(rest); }
    } else if s != [] {
      RemoveFenceComplete(s[1..]);
      KeptHeadStartsNoFence(s);
      ConsAddsOnlyAtFront(s[0], RemoveMarker(s[1..], Fence), Fence);
    }
  }

  /** A slice of a text without an occurrence has none either. */
  lemma NoOccurrenceInSlice(s: string, m: string, a: int, b: int)
    requires 0 <= a <= b <= |s|
    requires !Contains(s, m)
    ensures !Contains(s[a..b], m)
  {
    if Contains(s[a..b], m) {
      var i :| 0 <= i <= |s[a..b]| - |m| && OccursAt(s[a..b], m, i);
      assert s[a + i..a + i + |m|] == s[a..b][i..i + |m|] by {
        forall k | i <= k < i + |m| ensures s[a..b][k] == s[a + k] {}
      }
      assert OccursAt(s, m, a + i);
    }
  }

  lemma NoOccurrenceAfterTrim(s: string, m: string)
    requires !Contains(s, m)
    ensures !Contains(Trim(s), m)
  {
    var a :| Slice(s, Trim(s), a);
    NoOccurrenceInSlice(s, m, a, a + |Trim(s)|);
  }

  /** Fence stripping leaves no "```" (and so no "```json") in the text that is decoded. */
  lemma StripFencesRemovesAll(responseText: string)
    ensures !Contains(StripFences(responseText), Fence)
  {
    if Contains(responseText, JsonFence) {
      var once := RemoveMarker(responseText, JsonFence);
      RemoveFenceComplete(once);
      NoOccurrenceAfterTrim(RemoveMarker(once, Fence), Fence);
    } else if Contains(responseText, Fence) {
      RemoveFenceComplete(responseText);
      NoOccurrenceAfterTrim(RemoveMarker(responseText, Fence), Fence);
    }
  }

  // ---------------------------------------------------------------- parseCommands

  /** The single command used whenever the reply cannot be used. */
  function Fallback(userInput: string): (r: seq<Command>)
    ensures |r| == 1 && r[0].action == JStr("CONVERSATION") && r[0].confidence == JNum(1.0)
    ensures r[0].data == JObj(map["message" := JStr(userInput)]) && r[0].originalInput == userInput
  {
    [Command(JStr("CONVERSATION"), JNum(1.0), JObj(map["message" := JStr(userInput)]), userInput)]
  }

  /** The defaults filled into each decoded element (`cmd.action || "CONVERSATION"`, ...). */
  function Normalize(cmd: Json, userInput: string): (c: Command)
    ensures Truthy(c.action) && Truthy(c.confidence) && Truthy(c.data) && c.originalInput == userInput
  {
    Command(Or(Field(cmd, "action"), JStr("CONVERSATION")),
            Or(Field(cmd, "confidence"), JNum(0.5)),
            Or(Field(cmd, "data"), JObj(map[])),
            userInput)
  }

  /**
   * The commands for one user input. `reply` is the model's text (None when
   * the call failed) and `decode` stands for `JSON.parse` (None when it
   * throws). Reading `.action` of a null element throws, which also ends in
   * the fallback.
   */
  function ParseCommands(userInput: string, reply: Option<string>, decode: string -> Option<Json>): seq<Command> {
    if reply.None? then Fallback(userInput)
    else
      match decode(StripFences(Trim(reply.value)))
      case Some(JArr(items)) =>
        if JNull in items then Fallback(userInput)
        else seq(|items|, i requires 0 <= i < |items| => Normalize(items[i], userInput))
      case _ => Fallback(userInput)
  }

  /** The text that is handed to the decoder. */
  function DecodedText(reply: string): string {
    StripFences(Trim(reply))
  }

  /**
   * A decoded array without null elements keeps its length and order, each
   * element normalised with the documented defaults; an empty array gives no
   * commands rather than the fallback.
   */
  lemma ParseKeepsCommands(userInput: string, reply: string, decode: string -> Option<Json>, items: seq<Json>)
    requires decode(DecodedText(reply)) == Some(JArr(items)) && JNull !in items
    ensures var r := ParseCommands(userInput, Some(reply), decode);
            && |r| == |items|
            && (items == [] ==> r == [])
            && forall i :: 0 <= i < |items| ==>
                 && r[i].originalInput == userInput
                 && (TruthyOpt(Field(items[i], "action")) ==> Some(r[i].action) == Field(items[i], "action"))
                 && (!TruthyOpt(Field(items[i], "action")) ==> r[i].action == JStr("CONVERSATION"))
                 && (TruthyOpt(Field(items[i], "confidence")) ==> Some(r[i].confidence) == Field(items[i], "confidence"))
                 && (!TruthyOpt(Field(items[i], "confidence")) ==> r[i].confidence == JNum(0.5))
                 && (TruthyOpt(Field(items[i], "data")) ==> Some(r[i].data) == Field(items[i], "data"))
                 && (!TruthyOpt(Field(items[i], "data")) ==> r[i].data == JObj(map[]))
  {
  }

  /** Every failure ends in exactly the one fallback command. */
  lemma ParseFailureFallsBack(userInput: string, reply: Option<string>, decode: string -> Option<Json>)
    requires || reply.None?
             || decode(DecodedText(reply.value)).None?
             || !decode(DecodedText(reply.value)).value.JArr?
             || JNull in decode(DecodedText(reply.value)).value.items
    ensures ParseCommands(userInput, reply, decode) == Fallback(userInput)
  {
  }

  /** The result is the fallback or one command per decoded element, all carrying the user text. */
  lemma ParseShape(userInput: string, reply: Option<string>, decode: string -> Option<Json>)
    ensures var r := ParseCommands(userInput, reply, decode);
            (r == Fallback(userInput)) ||
            (reply.Some? && decode(DecodedText(reply.value)).Some? && decode(DecodedText(reply.value)).value.JArr?
             && |r| == |decode(DecodedText(reply.value)).value.items|)
    ensures forall c :: c in ParseCommands(userInput, reply, decode) ==> c.originalInput == userInput && Truthy(c.action)
  {
  }

  // ---------------------------------------------------------------- isQuestion

  const QuestionWords: seq<string> := ["what", "how", "why", "when", "where", "who", "can", "should", "would"]

  predicate IsQuestion(userInput: string) {
    var lowercaseInput := Lower(userInput);
    (exists k | 0 <= k < |QuestionWords| :: StartsWith(lowercaseInput, QuestionWords[k]))
    || Contains(lowercaseInput, "?")
  }

  /** Lower-casing keeps every '?' where it was. */
  lemma LowerKeepsQuestionMark(s: string)
    requires Contains(s, "?")
    ensures Contains(Lower(s), "?")
  {
    var i :| 0 <= i <= |s| - 1 && OccursAt(s, "?", i);
    assert s[i] == '?';
    assert Lower(s)[i] == '?';
    assert Lower(s)[i..i + 1] == "?";
    assert OccursAt(Lower(s), "?", i);
  }

  /** An input is a question iff it contains "?" or starts, in any letter case, with a question word (a prefix match). */
  lemma IsQuestionCases(userInput: string)
    ensures Contains(userInput, "?") ==> IsQuestion(userInput)
    ensures IsQuestion(userInput) <==>
              Contains(Lower(userInput), "?") || exists w :: w in QuestionWords && StartsWith(Lower(userInput), w)
  {
    if Contains(userInput, "?") { LowerKeepsQuestionMark(userInput); }
    if exists w :: w in QuestionWords && StartsWith(Lower(userInput), w) {
      var w :| w in QuestionWords && StartsWith(Lower(userInput), w);
      var k :| 0 <= k < |QuestionWords| && QuestionWords[k] == w;
    }
  }

  /** "Canada is nice" starts with "can", so it counts as a question. */
  lemma PrefixMatchIsNotAWordMatch()
    ensures IsQuestion("Canada is nice")
  {
    assert Lower("Canada is nice")[..3] == "can";
    assert StartsWith(Lower("Canada is nice"), QuestionWords[6]);
  }

  // ---------------------------------------------------------------- extractAmount

  /** What `extractAmount` returns: null, or a number that may be NaN. */
  datatype Amount = NoAmount | Amount(value: Num)

  predicate IsDigitOrComma(c: char) { IsDigit(c) || c == ',' }

  /** The first index satisfying `p`, or |s|. */
  function FirstWhere(s: string, p: char -> bool): (i: nat)
    ensures i <= |s|
    ensures forall j :: 0 <= j < i ==> !p(s[j])
    ensures i < |s| ==> p(s[i])
  {
    if s == [] then 0 else if p(s[0]) then 0 else 1 + FirstWhere(s[1..], p)
  }

  /** The length of the longest prefix of `s` whose characters satisfy `p`. */
  function RunLength(s: string, p: char -> bool): (n: nat)
    ensures n <= |s|
    ensures forall j :: 0 <= j < n ==> p(s[j])
    ensures n < |s| ==> !p(s[n])
  {
    if s == [] || !p(s[0]) then 0 else 1 + RunLength(s[1..], p)
  }

  /**
   * Capture group 1 of `/\$?([\d,]+\.?\d*)/` at its leftmost match: the
   * match begins at the first digit or comma (an optional '$' before it
   * does not move the group), takes the whole run of digits and commas, then
   * a point and its digits if there is one.
   */
  function MatchAmountPattern(text: string): (g: Option<string>)
    ensures g.None? <==> forall j :: 0 <= j < |text| ==> !IsDigitOrComma(text[j])
  {
    var i := FirstWhere(text, IsDigitOrComma);
    if i == |text| then None
    else
      var s := text[i..];
      var n := RunLength(s, IsDigitOrComma);
      var tail := s[n..];
      if tail != [] && tail[0] == '.' then Some(s[..n] + "." + tail[1..][..RunLength(tail[1..], IsDigit)])
      else Some(s[..n])
  }

  predicate IsLetterK(c: char) { c == 'k' || c == 'K' }

  /**
   * Capture group 1 of `/\$?([\d]+)k/i` at its leftmost match: the first
   * digit whose run of digits is followed by 'k' or 'K'.
   */
  function MatchThousandsPattern(text: string): (g: Option<string>)
    decreases |text|
  {
    if text == [] then None
    else if IsDigit(text[0]) then
      var n := RunLength(text, IsDigit);
      if n < |text| && IsLetterK(text[n]) then Some(text[..n]) else MatchThousandsPattern(text[n..])
    else MatchThousandsPattern(text[1..])
  }

  /** The second pattern only matches a text with a digit. */
  lemma {:induction false} ThousandsPatternNeedsDigit(text: string)
    requires MatchThousandsPattern(text).Some?
    ensures exists j :: 0 <= j < |text| && IsDigit(text[j])
    decreases |text|
  {
    if !IsDigit(text[0]) {
      ThousandsPatternNeedsDigit(text[1..]);
      var j :| 0 <= j < |text[1..]| && IsDigit(text[1..][j]);
      assert IsDigit(text[1 + j]);
    }
  }

  /** The second pattern can only match where the first already does, so it is never used. */
  lemma ThousandsPatternUnreachable(text: string)
    requires MatchThousandsPattern(text).Some?
    ensures MatchAmountPattern(text).Some?
  {
    ThousandsPatternNeedsDigit(text);
    var j :| 0 <= j < |text| && IsDigit(text[j]);
    assert IsDigitOrComma(text[j]);
  }

  /** `.replace(/,/g, '')`: the characters other than commas, in their order. */
  function RemoveCommas(s: string): (r: string)
    ensures ',' !in r
    ensures forall c :: c in r ==> c in s
    ensures ',' !in s ==> r == s
    ensures |r| <= |s|
  {
    if s == [] then [] else (if s[0] == ',' then [] else [s[0]]) + RemoveCommas(s[1..])
  }

  /**
   * Removing commas works part by part: each part of a text keeps its
   * non-comma characters, in order.
   */
  lemma {:induction false} RemoveCommasConcat(a: string, b: string)
    ensures RemoveCommas(a + b) == RemoveCommas(a) + RemoveCommas(b)
    decreases |a|
  {
    if a == [] {
      assert a + b == b;
    } else {
      var head := if a[0] == ',' then [] else [a[0]];
      assert (a + b)[0] == a[0];
      assert (a + b)[1..] == a[1..] + b;
      RemoveCommasConcat(a[1..], b);
      assert RemoveCommas(a + b) == head + RemoveCommas(a[1..] + b);
    }
  }

  /** A comma alone disappears and any other character alone is kept. */
  lemma RemoveCommasOne(c: char)
    ensures RemoveCommas([c]) == if c == ',' then [] else [c]
  {
    assert [c][1..] == [];
  }

  function Times1000(n: Num): Num {
    match n
    case Finite(x) => Finite(x * 1000.0)
    case NaN => NaN
  }

  /** `parseFloat` of the captured text after commas are removed, times 1000 when the text has a k. */
  function AmountFromGroup(text: string, group: string): Num {
    var digits := RemoveCommas(group);
    if Contains(Lower(text), "k") then Times1000(UnsignedToNum(digits)) else UnsignedToNum(digits)
  }

  function MatchPattern(k: nat, text: string): Option<string>
    requires k < 2
  {
    if k == 0 then MatchAmountPattern(text) else MatchThousandsPattern(text)
  }

  /**
   * The pattern loop of `extractAmount`: null iff the text has neither a
   * digit nor a comma; otherwise the first pattern's group, commas removed,
   * scaled by 1000 when the text contains a k in either case.
   */
  method ExtractAmount(text: string) returns (r: Amount)
    ensures r.NoAmount? <==> forall j :: 0 <= j < |text| ==> !IsDigitOrComma(text[j])
    ensures r.Amount? ==> r.value == AmountFromGroup(text, MatchAmountPattern(text).value)
  {
    var k := 0;
    while k < 2
      invariant 0 <= k <= 2
      invariant k > 0 ==> MatchAmountPattern(text).None?
      invariant k > 1 ==> MatchThousandsPattern(text).None?
    {
      var m := MatchPattern(k, text);
      if m.Some? {
        if k == 1 { ThousandsPatternUnreachable(text); }
        return Amount(AmountFromGroup(text, m.value));
      }
      k := k + 1;
    }
    return NoAmount;
  }

  /** Lower-case conversion turns 'K' into 'k', so either letter triggers the factor 1000. */
  lemma LowerFindsEitherK(text: string, i: int)
    requires 0 <= i < |text| && IsLetterK(text[i])
    ensures Contains(Lower(text), "k")
  {
    assert Lower(text)[i] == 'k';
    assert Lower(text)[i..i + 1] == "k";
    assert OccursAt(Lower(text), "k", i);
  }

  // ---------------------------------------------------------------- validateCommand

  /** The result of `validateCommand`: `true`, `{valid:true}`, `{valid:false,...}`, or a thrown TypeError. */
  datatype Validation = NoRules | Valid | Invalid(missingFields: seq<string>, message: string) | Throws(error: string)

  /** No inherited name begins with a capital letter, so no action name is one. */
  lemma ActionNamesNotInherited(key: string)
    requires key != [] && 'A' <= key[0] <= 'Z'
    ensures key !in InheritedNames
  {
  }

  function RequiredFields(action: string): Option<seq<string>> {
    if action == "CREATE_INCOME" then Some(["source", "amount", "frequency"])
    else if action == "CREATE_EXPENSE" then Some(["description", "amount", "category"])
    else if action == "CREATE_DEBT" then Some(["name", "balance"])
    else if action == "CREATE_SAVINGS_GOAL" then Some(["name", "targetAmount"])
    else if action == "CREATE_BILL" then Some(["name", "amount"])
    else None
  }

  /** `required.filter((field) => !command.data[field])` */
  function MissingFields(required: seq<string>, data: Json): (r: seq<string>)
    ensures forall f :: f in r <==> f in required && !TruthyOpt(Field(data, f))
    ensures |r| <= |required|
  {
    if required == [] then []
    else (if TruthyOpt(Field(data, required[0])) then [] else [required[0]]) + MissingFields(required[1..], data)
  }

  /** V8's message for `command.data[field]` on null data: the first field read names the error. */
  function NullDataError(required: seq<string>): string
    requires required != []
  {
    "Cannot read properties of null (reading '" + required[0] + "')"
  }

  function ValidateCommand(command: Command): Validation {
    var key := DisplayText(command.action);
    if key in InheritedNames then Throws("required.filter is not a function")
    else match RequiredFields(key)
      case None => NoRules
      case Some(required) =>
        if command.data == JNull then Throws(NullDataError(required))
        else
          var missing := MissingFields(required, command.data);
          if |missing| > 0 then Invalid(missing, "Missing required fields: " + Join(missing, ", "))
          else Valid
  }

  /**
   * Actions without a list validate as `true`. For a listed action a null
   * `data` throws; otherwise the command is valid exactly when every
   * required field is truthy, and invalid exactly when some is falsy, the
   * result then listing, in declared order, exactly the falsy ones.
   */
  lemma ValidateCommandCases(command: Command)
    ensures var key := DisplayText(command.action);
            var v := ValidateCommand(command);
            && (RequiredFields(key).None? && key !in InheritedNames <==> v == NoRules)
            && (RequiredFields(key).Some? && command.data == JNull ==>
                  v == Throws(NullDataError(RequiredFields(key).value)))
            && (RequiredFields(key).Some? && command.data != JNull ==>
                  && (v == Valid <==> forall f :: f in RequiredFields(key).value ==> TruthyOpt(Field(command.data, f)))
                  && (v.Invalid? <==> exists f :: f in RequiredFields(key).value && !TruthyOpt(Field(command.data, f))))
            && (v.Invalid? ==> v.missingFields == MissingFields(RequiredFields(key).value, command.data)
                               && v.missingFields != []
                               && v.message == "Missing required fields: " + Join(v.missingFields, ", "))
  {
    var key := DisplayText(command.action);
    if RequiredFields(key).Some? {
      var required := RequiredFields(key).value;
      ActionNamesNotInherited(key);
      if command.data != JNull {
        var missing := MissingFields(required, command.data);
        if missing != [] {
          assert missing[0] in missing;
        }
      }
    }
  }

  /** An amount of 0 counts as missing. */
  lemma ZeroAmountIsMissing(name: string)
    requires name != ""
    ensures ValidateCommand(Command(JStr("CREATE_BILL"), JNum(1.0), JObj(map["name" := JStr(name), "amount" := JNum(0.0)]), ""))
            == Invalid(["amount"], "Missing required fields: amount")
  {
    var data := JObj(map["name" := JStr(name), "amount" := JNum(0.0)]);
    assert MissingFields(["amount"], data) == ["amount"];
    assert MissingFields(["name", "amount"], data) == ["amount"] by {
      assert ["name", "amount"][1..] == ["amount"];
    }
    assert DisplayText(JStr("CREATE_BILL")) == "CREATE_BILL";
    ActionNamesNotInherited("CREATE_BILL");
  }
}
