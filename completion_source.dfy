/**
 * The completion source: when the host asks it to augment a completion session,
 * it takes the token under the trigger point, asks the translation service for
 * it, turns the JSON answer into (word, description) pairs and, when there are
 * any, adds one completion set spanning exactly the token.
 */
module CompletionSource {
  import opened Wrappers
  import opened JsonTree
  import opened CaretToken

  /** A `KeyValuePair<string, string>`: a word and its translations; either string may be `null`. */
  datatype Pair = Pair(key: Option<string>, value: Option<string>)

  /**
   * What the HTTP request for a token produced: a response body that
   * deserialised to a JSON value, a `WebException` (its message goes to the
   * status bar), or any other exception.
   */
  datatype Response = Body(json: Json) | TransportError(message: string) | OtherError

  /** A `Completion`: display text, insertion text and description. */
  datatype Completion = Completion(displayText: Option<string>, insertionText: Option<string>, description: Option<string>)

  /** A `CompletionSet` with its tracking span given as start position and length in the buffer. */
  datatype CompletionSet = CompletionSet(
    moniker: string, displayName: string, spanStart: nat, spanLength: nat, completions: seq<Completion>)

  /** The trigger point of the session: its line's start position and text, and its column in that line. */
  datatype TriggerPoint = TriggerPoint(lineStart: nat, line: seq<CodeUnit>, column: nat)
  {
    /** The trigger point lies within its line. */
    predicate Valid() { column <= |line| }
    function Position(): nat { lineStart + column }
  }

  const Moniker: string := "Translation"
  const DisplayName: string := "翻訳"

  // ---------------------------------------------------------------------------
  // Reading the service's answer
  // ---------------------------------------------------------------------------

  /** `(ary[0][0][0].Value<string>(), ary[0][0][1].Value<string>())`: the headline translation. */
  function Headline(ary: Json): Outcome<Pair>
  {
    var phrases :- At(ary, 0);
    var best :- At(phrases, 0);
    var source :- At(best, 0);
    var key :- StringValue(source);
    var target :- At(best, 1);
    var value :- StringValue(target);
    Ok(Pair(key, value))
  }

  /** `groups.SelectMany(token => token[2])`: the dictionary entries of every group, group by group. */
  function SelectEntries(groups: seq<Json>): Outcome<seq<Json>>
  {
    if groups == [] then Ok([])
    else
      var entries :- At(groups[0], 2);
      var rest :- SelectEntries(groups[1..]);
      Ok(Children(entries) + rest)
  }

  /** `new KeyValuePair(token[0].Value<string>(), string.Join(", ", token[1]))` for one entry. */
  function ToPair(entry: Json): Outcome<Pair>
  {
    var word :- At(entry, 0);
    var key :- StringValue(word);
    var synonyms :- At(entry, 1);
    Ok(Pair(key, Some(Join(", ", Displays(Children(synonyms))))))
  }

  /** `entries.Select(ToPair).ToArray()`: fails if any entry fails, otherwise maps entry by entry. */
  function SelectPairs(entries: seq<Json>): (r: Outcome<seq<Pair>>)
    ensures r.Ok? <==> forall i :: 0 <= i < |entries| ==> ToPair(entries[i]).Ok?
    ensures r.Ok? ==> |r.value| == |entries|
    ensures r.Ok? ==> forall i :: 0 <= i < |entries| ==> r.value[i] == ToPair(entries[i]).value
  {
    if entries == [] then Ok([])
    else
      var first :- ToPair(entries[0]);
      var rest :- SelectPairs(entries[1..]);
      Ok([first] + rest)
  }

  /** The alternatives: the pairs of the entries of every group of `ary[1]`. */
  function Alternatives(ary: Json): Outcome<seq<Pair>>
  {
    var groups :- At(ary, 1);
    var entries :- SelectEntries(Children(groups));
    SelectPairs(entries)
  }

  /**
   * The `completions` list after the `try` block: the headline followed by the
   * alternatives, or nothing at all when the request or any access failed.
   */
  function Completions(response: Response): (r: seq<Pair>)
  {
    match response
    case Body(ary) =>
      var result := Headline(ary);
      var compls := Alternatives(ary);
      if result.Ok? && compls.Ok? then [result.value] + compls.value else []
    case _ => []
  }

  /** `new Completion(kv.Key, kv.Key, kv.Value, null, null)` for every pair, in order. */
  function ToCompletions(pairs: seq<Pair>): (r: seq<Completion>)
    ensures |r| == |pairs|
    ensures forall i :: 0 <= i < |pairs| ==>
      r[i].displayText == pairs[i].key && r[i].insertionText == pairs[i].key && r[i].description == pairs[i].value
  {
    if pairs == [] then []
    else [Completion(pairs[0].key, pairs[0].key, pairs[0].value)] + ToCompletions(pairs[1..])
  }

  // ---------------------------------------------------------------------------
  // The shape of a usable answer, stated on its own
  // ---------------------------------------------------------------------------

  /** A dictionary entry `[word, [synonym, ...], ...]` whose word is not an array. */
  predicate WellShapedEntry(e: Json)
  {
    e.Arr? && |e.items| >= 2 && !e.items[0].Arr?
  }

  /** The dictionary entries of a group: the children of its element at index 2, if it has one. */
  function GroupEntries(g: Json): seq<Json>
  {
    if g.Arr? && |g.items| >= 3 then Children(g.items[2]) else []
  }

  /** A group `[_, _, [entry, ...], ...]` whose every entry is well shaped. */
  predicate WellShapedGroup(g: Json)
  {
    g.Arr? && |g.items| >= 3
    && forall e :: e in GroupEntries(g) ==> WellShapedEntry(e)
  }

  /** `[[[phrase, translation, ...], ...], [group, ...], ...]` with primitive phrase and translation. */
  predicate WellShaped(ary: Json)
  {
    && ary.Arr? && |ary.items| >= 2
    && ary.items[0].Arr? && |ary.items[0].items| >= 1
    && (var best := ary.items[0].items[0];
        best.Arr? && |best.items| >= 2 && !best.items[0].Arr? && !best.items[1].Arr?)
    && forall g :: g in Children(ary.items[1]) ==> WellShapedGroup(g)
  }

  /** `SelectEntries` succeeds exactly when every group has an element at index 2. */
  lemma {:induction false} SelectEntriesOk(groups: seq<Json>)
    ensures SelectEntries(groups).Ok? <==> forall g :: g in groups ==> At(g, 2).Ok?
  {
    if groups != [] {
      SelectEntriesOk(groups[1..]);
      assert forall g :: g in groups ==> g == groups[0] || g in groups[1..];
    }
  }

  /** The entries `SelectEntries` yields are exactly the children of the groups' index-2 elements. */
  lemma {:induction false} SelectEntriesMembers(groups: seq<Json>, e: Json)
    requires SelectEntries(groups).Ok?
    ensures e in SelectEntries(groups).value <==> exists g :: g in groups && e in GroupEntries(g)
  {
    if groups != [] {
      SelectEntriesMembers(groups[1..], e);
      assert SelectEntries(groups).value == GroupEntries(groups[0]) + SelectEntries(groups[1..]).value;
      if e in GroupEntries(groups[0]) {
        assert groups[0] in groups;
      } else if e in SelectEntries(groups[1..]).value {
        var g :| g in groups[1..] && e in GroupEntries(g);
        assert g in groups;
      } else {
        forall g | g in groups
          ensures e !in GroupEntries(g)
        {
          assert g == groups[0] || g in groups[1..];
        }
      }
    }
  }

  /**
   * Flattening keeps the service's order: the entries of a concatenation of
   * groups are the entries of the first part followed by those of the second,
   * and the whole fails exactly when one part fails.
   */
  lemma {:induction false} SelectEntriesAppend(g1: seq<Json>, g2: seq<Json>)
    ensures SelectEntries(g1 + g2).Ok? <==> SelectEntries(g1).Ok? && SelectEntries(g2).Ok?
    ensures SelectEntries(g1 + g2).Ok? ==>
      SelectEntries(g1 + g2).value == SelectEntries(g1).value + SelectEntries(g2).value
  {
    if g1 == [] {
      assert g1 + g2 == g2;
    } else {
      assert (g1 + g2)[1..] == g1[1..] + g2;
      SelectEntriesAppend(g1[1..], g2);
    }
  }

  /** A single entry's pair: its word as key, its synonyms joined with ", " as description. */
  lemma {:induction false} EntryPair(word: string, synonyms: seq<string>, extra: seq<Json>)
    ensures ToPair(Arr([Str(word), Arr(StrItems(synonyms))] + extra))
         == Ok(Pair(Some(word), Some(Join(", ", synonyms))))
  {
    DisplaysOfStrings(synonyms);
  }

  /** `[Str(s) | s in xs]` */
  function StrItems(xs: seq<string>): (r: seq<Json>)
    ensures |r| == |xs|
  {
    if xs == [] then [] else [Str(xs[0])] + StrItems(xs[1..])
  }

  lemma {:induction false} DisplaysOfStrings(xs: seq<string>)
    ensures Displays(StrItems(xs)) == xs
  {
    if xs != [] {
      DisplaysOfStrings(xs[1..]);
    }
  }

  /** An entry can be turned into a pair exactly when it is well shaped. */
  lemma ToPairOk(e: Json)
    ensures ToPair(e).Ok? <==> WellShapedEntry(e)
  {
  }

  /** A response yields completions exactly when it is well shaped. */
  lemma ResponseShape(ary: Json)
    ensures Completions(Body(ary)) != [] <==> WellShaped(ary)
  {
    CompletionsAllOrNothing(Body(ary));
    if ary.Arr? && |ary.items| >= 2 {
      var groups := Children(ary.items[1]);
      SelectEntriesOk(groups);
      if SelectEntries(groups).Ok? {
        var entries := SelectEntries(groups).value;
        if forall i :: 0 <= i < |entries| ==> ToPair(entries[i]).Ok? {
          forall g, e | g in groups && e in GroupEntries(g)
            ensures WellShapedEntry(e)
          {
            SelectEntriesMembers(groups, e);
            var i :| 0 <= i < |entries| && entries[i] == e;
            ToPairOk(e);
          }
        } else {
          var i :| 0 <= i < |entries| && !ToPair(entries[i]).Ok?;
          ToPairOk(entries[i]);
          SelectEntriesMembers(groups, entries[i]);
          var g :| g in groups && entries[i] in GroupEntries(g);
          assert !WellShapedGroup(g);
        }
      } else {
        var g :| g in groups && !At(g, 2).Ok?;
        assert !WellShapedGroup(g);
      }
    }
  }

  /**
   * A usable answer gives the headline first and then one pair per dictionary
   * entry, in the service's order, without reordering or deduplication.
   */
  lemma WellShapedCompletions(ary: Json)
    requires WellShaped(ary)
    ensures var r := Completions(Body(ary));
      && var best := ary.items[0].items[0];
      && SelectEntries(Children(ary.items[1])).Ok?
      && var entries := SelectEntries(Children(ary.items[1])).value;
      && |r| == 1 + |entries|
      && r[0] == Pair(StringValue(best.items[0]).value, StringValue(best.items[1]).value)
      && forall i :: 0 <= i < |entries| ==> r[1 + i] == ToPair(entries[i]).value
  {
    ResponseShape(ary);
    CompletionsAllOrNothing(Body(ary));
    var best := ary.items[0].items[0];
    assert Headline(ary) == Ok(Pair(StringValue(best.items[0]).value, StringValue(best.items[1]).value));
    var entries := SelectEntries(Children(ary.items[1])).value;
    assert Alternatives(ary) == SelectPairs(entries);
  }

  /**
   * A concrete answer in the shape the code reads: the headline `今日`/`today`
   * and one group whose index-2 element holds one entry with two synonyms.
   */
  lemma {:induction false} ThreeElementGroupExample()
    ensures Completions(Body(Arr([
      Arr([Arr([Str("今日"), Str("today")])]),
      Arr([Arr([Null, Arr([Str("today")]), Arr([Arr([Str("今日"), Arr([Str("today"), Str("this day")])])])])])])))
      == [Pair(Some("今日"), Some("today")), Pair(Some("今日"), Some("today, this day"))]
  {
    var entry := Arr([Str("今日"), Arr([Str("today"), Str("this day")])]);
    assert Displays([Str("today"), Str("this day")]) == ["today", "this day"];
    assert Join(", ", ["today", "this day"]) == "today, this day";
    assert ToPair(entry) == Ok(Pair(Some("今日"), Some("today, this day")));
  }

  /**
   * An answer whose groups have only two elements, `[null, [entry, ...]]`,
   * yields nothing: `token[2]` throws on every group, so the whole `try` block
   * fails and even the headline is dropped.
   */
  lemma TwoElementGroupGivesNothing()
    ensures Completions(Body(Arr([
      Arr([Arr([Str("今日"), Str("today")])]),
      Arr([Arr([Null, Arr([Arr([Str("今日"), Arr([Str("today"), Str("this day")])])])])])])))
      == []
  {
  }

  /**
   * All or nothing: the completions are either empty, or the headline followed
   * by every alternative, the latter only when both were read without a throw.
   */
  lemma CompletionsAllOrNothing(response: Response)
    ensures var r := Completions(response);
      r != [] <==> response.Body? && Headline(response.json).Ok? && Alternatives(response.json).Ok?
    ensures var r := Completions(response);
      r != [] ==> r == [Headline(response.json).value] + Alternatives(response.json).value
  {
  }

  /** The all-or-nothing rule: a failed request never contributes completions. */
  lemma FailedRequestGivesNothing(response: Response)
    requires !response.Body?
    ensures Completions(response) == []
  {
  }

  // ---------------------------------------------------------------------------
  // The session's list of completion sets, and the augmentation itself
  // ---------------------------------------------------------------------------

  /**
   * The completion sets one augmentation adds: none unless the token is
   * non-empty and the answer yields completions; then one set whose span is
   * the token and whose completions are the pairs, in order.
   */
  function AddedSets(tp: TriggerPoint, k: CharClasses, response: Response): seq<CompletionSet>
    requires tp.Valid()
  {
    SetForToken(tp, Scan(k, tp.line, tp.column), Completions(response))
  }

  /** The completion set for `pairs` over the span of `tok` around the trigger point, if both are non-empty. */
  function SetForToken(tp: TriggerPoint, tok: Token, pairs: seq<Pair>): seq<CompletionSet>
    requires tok.head <= tp.Position()
  {
    if tok.Length() > 0 && pairs != [] then
      [CompletionSet(Moniker, DisplayName, tp.Position() - tok.head, tok.Length(), ToCompletions(pairs))]
    else []
  }

  /**
   * At most one set is added, and one is added exactly when the token is
   * non-empty and the answer yields completions; it carries the "Translation"
   * tab and one completion per pair, in order, with the pair's key as display
   * and insertion text and its value as description.
   */
  lemma AddedSetsContents(tp: TriggerPoint, k: CharClasses, response: Response)
    requires tp.Valid()
    ensures var r := AddedSets(tp, k, response);
      && |r| <= 1
      && (|r| == 1 <==> Scan(k, tp.line, tp.column).Length() > 0 && Completions(response) != [])
      && (|r| == 1 ==> r[0].moniker == Moniker && r[0].displayName == DisplayName)
    ensures var r := AddedSets(tp, k, response);
      |r| == 1 ==>
        var pairs := Completions(response);
        && |r[0].completions| == |pairs|
        && forall i :: 0 <= i < |pairs| ==>
             r[0].completions[i] == Completion(pairs[i].key, pairs[i].key, pairs[i].value)
  {
  }

  /**
   * The added set's span is exactly the token: it starts `head` code units
   * before the trigger point, at the token's first code unit in the line, and
   * is as long as the token text the request was made for (which, by
   * `TokenText`'s contract, is the text the span covers).
   */
  lemma AddedSetSpansToken(tp: TriggerPoint, k: CharClasses, response: Response)
    requires tp.Valid()
    ensures forall cs <- AddedSets(tp, k, response) ::
      && cs.spanStart == tp.lineStart + (tp.column - Scan(k, tp.line, tp.column).head)
      && cs.spanLength == |TokenText(k, tp.line, tp.column)|
  {
  }

  /**
   * `AddedSets` once the scan has given `head` and `tail` and the request, made
   * only for a non-empty token, has given `completions`.
   */
  lemma AddedSetsAfterRead(tp: TriggerPoint, k: CharClasses, response: Response,
                           head: nat, tail: nat, completions: seq<Pair>)
    requires tp.Valid()
    requires Scan(k, tp.line, tp.column) == Token(head, tail)
    requires completions == if head + tail > 0 then Completions(response) else []
    ensures AddedSets(tp, k, response)
         == if completions == [] then []
            else [CompletionSet(Moniker, DisplayName, tp.Position() - head, head + tail, ToCompletions(completions))]
  {
    if head + tail > 0 {
      assert AddedSets(tp, k, response) == SetForToken(tp, Token(head, tail), completions);
    } else {
      assert AddedSets(tp, k, response) == SetForToken(tp, Token(head, tail), Completions(response));
    }
  }

  /** Appending to the empty list gives the appended list. */
  lemma EmptyAppend<T>(xs: seq<T>)
    ensures [] + xs == xs
  {
  }

  /** Appending nothing leaves a list as it was. */
  lemma AppendEmpty<T>(xs: seq<T>, ys: seq<T>)
    requires ys == []
    ensures xs + ys == xs
  {
  }

  /** The `IList<CompletionSet>` the host passes in. */
  class CompletionSetList {
    var sets: seq<CompletionSet>

    method Add(cs: CompletionSet)
      modifies this
      ensures sets == old(sets) + [cs]
    {
      sets := sets + [cs];
    }
  }

  /**
   * The `try` block of `AugmentCompletionSession`: read the headline and the
   * alternatives from the answer and only then add both to `completions`; any
   * failure (a `WebException`, any other exception) leaves it empty.
   */
  method ReadTranslations(response: Response) returns (completions: seq<Pair>)
    ensures completions == Completions(response)
  {
    completions := [];
    match response
    case Body(ary) =>
      var result := Headline(ary);
      var compls := Alternatives(ary);
      if result.Ok? && compls.Ok? {
        completions := completions + [result.value];
        EmptyAppend([result.value]);
        completions := completions + compls.value;
      }
    case TransportError(message) =>
    case OtherError =>
  }

  /**
   * `AugmentCompletionSession`. `response` is what the request returns if one is
   * made; `query` is the token text the request is made for, if any.
   */
  method AugmentCompletionSession(trigger: Option<TriggerPoint>, k: CharClasses, response: Response,
                                  completionSets: CompletionSetList)
    returns (query: Option<seq<CodeUnit>>)
    requires trigger.Some? ==> trigger.value.Valid()
    modifies completionSets
    ensures trigger.None? ==> query.None? && completionSets.sets == old(completionSets.sets)
    ensures trigger.Some? ==>
      var tp := trigger.value;
      && query == (if Scan(k, tp.line, tp.column).Length() > 0 then Some(TokenText(k, tp.line, tp.column)) else None)
      && completionSets.sets == old(completionSets.sets) + AddedSets(tp, k, response)
  {
    query := None;
    var completions: seq<Pair> := [];
    if trigger.Some? {
      var tp := trigger.value;
      var p := tp.column;
      var s := tp.line;
      var head := Head(k, s, p);
      var tail := Tail(k, s, p);
      var length := head + tail;
      var t := TokenText(k, s, p);
      TokenBlankIffEmpty(k, s, p);
      if !IsBlank(k, t) {
        query := Some(t);
        completions := ReadTranslations(response);
      }
      AddedSetsAfterRead(tp, k, response, head, tail, completions);
      if |completions| > 0 {
        completionSets.Add(CompletionSet(Moniker, DisplayName, tp.Position() - head, length, ToCompletions(completions)));
      } else {
        AppendEmpty(completionSets.sets, AddedSets(tp, k, response));
      }
    }
  }
}
