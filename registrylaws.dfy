/**
 * Properties of the registry that relate several operations: lookups ignore
 * case, registration only appends so earlier lookups keep their answers, a
 * duplicate name never hides the earlier tool, and the streamed reply loses no
 * text.
 */
module RegistryLaws {
  import opened Wrappers
  import opened CaseFold
  import opened Sdk
  import opened ToolSystem
  import opened ToolManager

  /** Two spellings that are equal ignoring case find the same position. */
  lemma {:induction false} FirstMatchIgnoresCase(tools: seq<UnifiedTool>, a: string, b: string)
    requires EqualsIgnoreCase(a, b)
    ensures FirstMatch(tools, a) == FirstMatch(tools, b)
  {
    if tools != [] {
      assert NameMatches(tools[0], a) <==> NameMatches(tools[0], b) by {
        EqualsIgnoreCaseIsUpperEquality(a, b);
      }
      FirstMatchIgnoresCase(tools[1..], a, b);
    }
  }

  /** `GetTool("ADD")` and `GetTool("add")` return the same tool, whatever is registered. */
  lemma GetToolIgnoresCase(manager: UnifiedToolManager, a: string, b: string)
    requires EqualsIgnoreCase(a, b)
    ensures manager.GetTool(a) == manager.GetTool(b)
    ensures manager.GetTool("ADD") == manager.GetTool("add")
  {
    FirstMatchIgnoresCase(manager.tools, a, b);
    AddSpellings();
    FirstMatchIgnoresCase(manager.tools, "ADD", "add");
  }

  /** A matching position with no match before it is the position the lookup finds. */
  lemma FirstMatchAt(tools: seq<UnifiedTool>, name: string, k: nat)
    requires k < |tools| && NameMatches(tools[k], name)
    requires forall j :: 0 <= j < k ==> !NameMatches(tools[j], name)
    ensures FirstMatch(tools, name) == Some(k)
  {
  }

  /**
   * Appending tools never changes a lookup that already succeeds; a lookup that
   * failed now finds the first match among the appended tools.
   */
  lemma {:induction false} FirstMatchAfterAppend(tools: seq<UnifiedTool>, more: seq<UnifiedTool>, name: string)
    ensures FirstMatch(tools, name).Some? ==> FirstMatch(tools + more, name) == FirstMatch(tools, name)
    ensures FirstMatch(tools, name).None? && FirstMatch(more, name).Some? ==>
              FirstMatch(tools + more, name) == Some(|tools| + FirstMatch(more, name).value)
    ensures FirstMatch(tools, name).None? && FirstMatch(more, name).None? ==>
              FirstMatch(tools + more, name).None?
  {
    var all := tools + more;
    match FirstMatch(tools, name)
    case Some(i) =>
      forall j | 0 <= j < i ensures !NameMatches(all[j], name) {
        assert all[j] == tools[j];
      }
      assert all[i] == tools[i];
      FirstMatchAt(all, name, i);
    case None =>
      match FirstMatch(more, name)
      case Some(j) =>
        forall l | 0 <= l < |tools| + j ensures !NameMatches(all[l], name) {
          if l < |tools| { assert all[l] == tools[l]; } else { assert all[l] == more[l - |tools|]; }
        }
        assert all[|tools| + j] == more[j];
        FirstMatchAt(all, name, |tools| + j);
      case None =>
        forall l | 0 <= l < |all| ensures !NameMatches(all[l], name) {
          if l < |tools| { assert all[l] == tools[l]; } else { assert all[l] == more[l - |tools|]; }
        }
  }

  /**
   * Registration only appends, so a tool that `GetTool` finds before a
   * registration is the one it finds after it.
   */
  lemma RegistrationKeepsLookups(before: seq<UnifiedTool>, after: seq<UnifiedTool>, name: string)
    requires before <= after
    requires FirstMatch(before, name).Some?
    ensures FirstMatch(after, name) == FirstMatch(before, name)
  {
    var more := after[|before|..];
    assert after == before + more;
    FirstMatchAfterAppend(before, more, name);
  }

  /** With two tools whose names both match, the lookup stops at or before the earlier. */
  lemma DuplicateNameKeepsEarlier(tools: seq<UnifiedTool>, i: nat, j: nat, name: string)
    requires i < j < |tools|
    requires NameMatches(tools[i], name) && NameMatches(tools[j], name)
    ensures FirstMatch(tools, name).Some? && FirstMatch(tools, name).value <= i
  {
  }

  /**
   * Duplicate names are both kept in the list, and `GetTool` never returns the
   * later of the two.
   */
  lemma GetToolIgnoresLaterDuplicate(manager: UnifiedToolManager, i: nat, j: nat, name: string)
    requires manager.Valid()
    requires i < j < |manager.tools|
    requires NameMatches(manager.tools[i], name) && NameMatches(manager.tools[j], name)
    ensures manager.GetTool(name).Some?
    ensures manager.GetTool(name) != Some(manager.tools[j])
  {
    DuplicateNameKeepsEarlier(manager.tools, i, j, name);
    var k := FirstMatch(manager.tools, name).value;
    assert manager.tools[k] != manager.tools[j];
  }

  /** A name resolves exactly when some function offered to the chat client carries it (ignoring case). */
  lemma GetToolAgreesWithFunctions(manager: UnifiedToolManager, name: string)
    ensures manager.GetTool(name).Some? <==>
              exists f :: f in manager.GetAllAIFunctions() && EqualsIgnoreCase(f.name, name)
  {
    var fs := manager.GetAllAIFunctions();
    if manager.GetTool(name).Some? {
      var k := FirstMatch(manager.tools, name).value;
      assert fs[k] in fs;
    } else {
      forall f | f in fs ensures !EqualsIgnoreCase(f.name, name) {
        var i :| 0 <= i < |fs| && fs[i] == f;
        assert !NameMatches(manager.tools[i], name);
      }
    }
  }

  /** The function list of a longer registry extends that of the shorter: order is registration order. */
  lemma {:induction false} AIFunctionsAppend(tools: seq<UnifiedTool>, more: seq<UnifiedTool>)
    ensures AIFunctions(tools + more) == AIFunctions(tools) + AIFunctions(more)
  {
    if tools == [] {
      assert tools + more == more;
    } else {
      assert (tools + more)[1..] == tools[1..] + more;
      AIFunctionsAppend(tools[1..], more);
    }
  }

  /** A method becomes a tool exactly when it is one of the type's public instance methods with a description. */
  lemma {:induction false} DescribedMethodsMembership(methods: seq<MethodInfo>, m: MethodInfo)
    ensures m in DescribedMethods(methods) <==> m in methods && IsDescribedMethod(m)
  {
    if methods != [] {
      DescribedMethodsMembership(methods[1..], m);
      assert methods == [methods[0]] + methods[1..];
    }
  }

  /** Filtering keeps reflection order: it distributes over concatenation. */
  lemma {:induction false} DescribedMethodsAppend(methods: seq<MethodInfo>, more: seq<MethodInfo>)
    ensures DescribedMethods(methods + more) == DescribedMethods(methods) + DescribedMethods(more)
  {
    if methods == [] {
      assert methods + more == more;
    } else {
      assert (methods + more)[0] == methods[0];
      assert (methods + more)[1..] == methods[1..] + more;
      DescribedMethodsAppend(methods[1..], more);
    }
  }

  /** Every wrapper added for in-process methods has a described method behind it. */
  lemma DescribedMethodsAreDescribed(methods: seq<MethodInfo>, k: nat)
    requires k < |DescribedMethods(methods)|
    ensures IsDescribedMethod(DescribedMethods(methods)[k])
    ensures DescribedMethods(methods)[k] in methods
  {
    DescribedMethodsMembership(methods, DescribedMethods(methods)[k]);
  }

  /** No yielded chunk is empty. */
  lemma {:induction false} NonEmptyTextsAreNonEmpty(updates: seq<ChatResponseUpdate>)
    ensures forall k :: 0 <= k < |NonEmptyTexts(updates)| ==> NonEmptyTexts(updates)[k] != ""
  {
    if updates != [] {
      NonEmptyTextsAreNonEmpty(updates[..|updates| - 1]);
    }
  }

  /** The chunks of consecutive runs of updates are consecutive: arrival order is kept. */
  lemma {:induction false} NonEmptyTextsAppend(updates: seq<ChatResponseUpdate>, more: seq<ChatResponseUpdate>)
    ensures NonEmptyTexts(updates + more) == NonEmptyTexts(updates) + NonEmptyTexts(more)
  {
    if more == [] {
      assert updates + more == updates;
    } else {
      var init := more[..|more| - 1];
      assert (updates + more)[..|updates + more| - 1] == updates + init;
      assert (updates + more)[|updates + more| - 1] == more[|more| - 1];
      NonEmptyTextsAppend(updates, init);
    }
  }

  /** Joining one more chunk onto a run of chunks. */
  lemma {:induction false} ConcatAppendOne(chunks: seq<string>, s: string)
    ensures Concat(chunks + [s]) == Concat(chunks) + s
  {
  }

  /** Joining the yielded chunks gives all the text the client streamed: filtering loses nothing. */
  lemma {:induction false} ConcatNonEmptyTexts(updates: seq<ChatResponseUpdate>)
    ensures Concat(NonEmptyTexts(updates)) == AllText(updates)
  {
    if updates != [] {
      var init := updates[..|updates| - 1];
      var last := updates[|updates| - 1];
      ConcatNonEmptyTexts(init);
      if last.text.Some? && last.text.value != "" {
        ConcatAppendOne(NonEmptyTexts(init), last.text.value);
      } else {
        assert NonEmptyTexts(updates) == NonEmptyTexts(init);
      }
    }
  }

  /**
   * As written, ChatAsync's answer does not depend on the reply: two replies
   * whose answers are "5" and "7" render to the same string.
   */
  lemma ChatAsyncIgnoresReply()
    ensures MessagesToString([ChatMessage(Assistant, "5")]) == MessagesToString([ChatMessage(Assistant, "7")])
    ensures FinalText(ChatResponse([ChatMessage(Assistant, "5")])) != FinalText(ChatResponse([ChatMessage(Assistant, "7")]))
  {
  }

  /** As intended, the answer is the text of the reply's last message, so different answers are told apart. */
  lemma {:induction false} FinalTextIsLastReply(messages: seq<ChatMessage>, last: ChatMessage)
    ensures FinalText(ChatResponse(messages + [last])) == last.text
    ensures FinalText(ChatResponse([])) == ""
  {
  }
}
