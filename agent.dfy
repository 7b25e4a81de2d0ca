/** The chat agent of app/agent.py and the episodic environment of app/self_improve_env.py that
    drives it. The agent answers a message in one of three ways: it stores a feature request, it
    runs two self-improvement cycles of the live engine, or it forwards the message to the LLM.
    Its LLM call puts the app/ sources and the feature requests in front of the prompt and
    assembles the streamed reply. The environment picks the temperature, runs one cycle per step
    once warm-up is over, and scores it. The agent and the environment refer to each other, so
    both classes live in this one module. */
module Agent {
  import opened Wrappers
  import opened Text
  import opened Snapshot
  import opened Patching
  import opened CodeContext
  import opened Memory
  import opened SelfImprove
  import opened EnvRules

  // ---------------------------------------------------------------------------------------------
  // The LLM call

  /** One line of the streamed chat response, decoded: the message content it carries ("" when
      it carries none) and whether it is marked done. */
  datatype Part = Part(content: string, done: bool)

  /** What posting the chat request gives: the post failed (no connection, an error status), or
      a response with its body lines (`None` for a line that is empty or not JSON) and its whole
      text. */
  datatype Response = PostFailed | Streamed(lines: seq<Option<Part>>, text: string)

  /** The chat endpoint, as a function of the prompt posted to it. */
  type Transport = string -> Response

  /** What the stub LLM of an agent built without the real LLM answers to every prompt: a
      no-op git diff of app/__init__.py. */
  const Stub := "diff --git a/app/__init__.py b/app/__init__.py\n"
    + "index e69de29..e69de29 100644\n"
    + "--- a/app/__init__.py\n"
    + "+++ b/app/__init__.py\n"
    + "@@ -0,0 +1 @@\n"
    + " # no-op patch (stub)\n"

  /** What the agent's LLM call answers when the post fails and the real LLM is not in use. */
  const OfflinePatch := "*** Begin patch \n*** End patch\n"

  /** The feature text after the prompt: empty without feature requests. */
  function FeatureBlock(features: seq<Feature>): string {
    if features == [] then "" else "\nImplement these features:\n" + FeatureBullets(features)
  }

  /** The prompt the agent posts for `prompt`: the BEGIN/END blocks of the Python files, a line
      break, the prompt, and the feature requests. */
  function FullPrompt(tree: Tree, order: seq<string>, features: seq<Feature>, prompt: string): string {
    BeginEndContext(tree, order) + "\n" + prompt + FeatureBlock(features)
  }

  /** The posted prompt carries the caller's prompt on a line of its own start. */
  lemma FullPromptCarriesPrompt(tree: Tree, order: seq<string>, features: seq<Feature>, prompt: string)
    ensures Contains(FullPrompt(tree, order, features, prompt), "\n" + prompt)
  {
    ContainsMiddle(BeginEndContext(tree, order), "\n", prompt, FeatureBlock(features));
  }

  /** The posted prompt carries every visited Python file, with its path and whole content. */
  lemma FullPromptCarriesFile(tree: Tree, order: seq<string>, features: seq<Feature>, prompt: string, rel: string)
    requires rel in order && IsPyFile(tree, rel)
    ensures Contains(FullPrompt(tree, order, features, prompt), BeginEndBlock(tree, rel))
  {
    var x := BeginEndBlock(tree, rel);
    var context := BeginEndContext(tree, order);
    ContextCarriesFile(tree, order, rel);
    ContainsLeft(context, "\n", x);
    ContainsLeft(context + "\n", prompt, x);
    ContainsLeft(context + "\n" + prompt, FeatureBlock(features), x);
  }

  /** The posted prompt lists every feature request; without any it ends with the prompt. */
  lemma FullPromptListsFeatures(tree: Tree, order: seq<string>, features: seq<Feature>, prompt: string)
    ensures forall i :: 0 <= i < |features| ==>
      Contains(FullPrompt(tree, order, features, prompt), "- " + FeatureText(features[i]))
    ensures features == [] ==> EndsWith(FullPrompt(tree, order, features, prompt), prompt)
  {
    var before := BeginEndContext(tree, order) + "\n" + prompt;
    var block := FeatureBlock(features);
    forall i | 0 <= i < |features|
      ensures Contains(FullPrompt(tree, order, features, prompt), "- " + FeatureText(features[i]))
    {
      BulletsListFeature(features, i);
      ContainsRight("\nImplement these features:\n", FeatureBullets(features), "- " + FeatureText(features[i]));
      ContainsRight(before, block, "- " + FeatureText(features[i]));
    }
    if features == [] {
      assert FullPrompt(tree, order, features, prompt) == before;
    }
  }

  /** The contents collected from the stream: the non-empty content of every decoded line, up to
      and including the first line marked done. */
  function Collected(lines: seq<Option<Part>>): seq<string> {
    if lines == [] then []
    else
      match lines[0]
      case None => Collected(lines[1..])
      case Some(part) =>
        (if part.content != "" then [part.content] else [])
        + (if part.done then [] else Collected(lines[1..]))
  }

  /** The reply assembled from a response: the collected contents joined, or the stripped text
      of the response when nothing was collected. */
  function StreamReply(lines: seq<Option<Part>>, text: string): string {
    var parts := Collected(lines);
    if parts == [] then Strip(text) else Join(parts, "")
  }

  /** Every collected piece is non-empty. */
  lemma {:induction false} CollectedNonEmpty(lines: seq<Option<Part>>)
    ensures forall i :: 0 <= i < |Collected(lines)| ==> Collected(lines)[i] != ""
  {
    if lines != [] {
      CollectedNonEmpty(lines[1..]);
    }
  }

  /** Lines that are not all marked done contribute their contents in order, before what
      follows them. */
  lemma {:induction false} CollectedAppend(a: seq<Option<Part>>, b: seq<Option<Part>>)
    requires forall i :: 0 <= i < |a| ==> a[i].None? || !a[i].value.done
    ensures Collected(a + b) == Collected(a) + Collected(b)
  {
    if a == [] {
      assert a + b == b;
    } else {
      var rest := a[1..];
      assert (a + b)[0] == a[0];
      assert (a + b)[1..] == rest + b;
      assert forall i :: 0 <= i < |rest| ==> rest[i] == a[i + 1];
      CollectedAppend(rest, b);
      var head := if a[0].Some? && a[0].value.content != "" then [a[0].value.content] else [];
      assert Collected(a) == head + Collected(rest);
      assert Collected(a + b) == head + Collected(rest + b);
      ConcatAssoc(head, Collected(rest), Collected(b));
    }
  }

  /** Whatever follows the first line marked done is never read. */
  lemma {:induction false} DoneEndsStream(a: seq<Option<Part>>, part: Part, b: seq<Option<Part>>, b2: seq<Option<Part>>)
    requires part.done
    ensures Collected(a + [Some(part)] + b) == Collected(a + [Some(part)] + b2)
  {
    if a == [] {
      assert ([Some(part)] + b)[0] == Some(part);
      assert ([Some(part)] + b2)[0] == Some(part);
    } else {
      assert (a + [Some(part)] + b)[1..] == a[1..] + [Some(part)] + b;
      assert (a + [Some(part)] + b2)[1..] == a[1..] + [Some(part)] + b2;
      DoneEndsStream(a[1..], part, b, b2);
    }
  }

  /** The assembled reply is empty exactly when nothing was collected and the text is blank. */
  lemma EmptyReplyMeansBlankText(lines: seq<Option<Part>>, text: string)
    ensures StreamReply(lines, text) == "" <==> Collected(lines) == [] && Strip(text) == ""
  {
    var parts := Collected(lines);
    if parts != [] {
      CollectedNonEmpty(lines);
      JoinStartsWithFirst(parts, "");
      assert |Join(parts, "")| >= |parts[0]| > 0;
    }
  }

  /** `Collected` read from line `i` on. */
  lemma CollectedAt(lines: seq<Option<Part>>, i: nat)
    requires i < |lines|
    ensures Collected(lines[i..]) ==
      match lines[i]
      case None => Collected(lines[i + 1..])
      case Some(part) =>
        (if part.content != "" then [part.content] else [])
        + (if part.done then [] else Collected(lines[i + 1..]))
  {
    assert lines[i..][0] == lines[i];
    assert lines[i..][1..] == lines[i + 1..];
  }

  /** Regrouping a concatenation of three sequences, for the stream lemmas below. */
  lemma ConcatAssoc<T>(a: seq<T>, b: seq<T>, c: seq<T>)
    ensures a + (b + c) == a + b + c
  {
  }

  /** The stream loop of `ask_llm`. */
  method AssembleStream(lines: seq<Option<Part>>, text: string) returns (reply: string)
    ensures reply == StreamReply(lines, text)
  {
    var collected: seq<string> := [];
    var i := 0;
    while i < |lines|
      invariant i <= |lines|
      invariant collected + Collected(lines[i..]) == Collected(lines)
    {
      CollectedAt(lines, i);
      var line := lines[i];
      if line.None? {
        i := i + 1;
        continue;
      }
      var part := line.value;
      ghost var before := collected;
      ghost var head: seq<string> := if part.content != "" then [part.content] else [];
      ghost var tail := if part.done then [] else Collected(lines[i + 1..]);
      ConcatAssoc(before, head, tail);
      if part.content != "" {
        collected := collected + [part.content];
      }
      assert collected == before + head;
      if part.done {
        assert collected == Collected(lines);
        break;
      }
      i := i + 1;
    }
    assert collected == Collected(lines) by {
      if i == |lines| {
        assert lines[i..] == [];
      }
    }
    if collected != [] {
      reply := Join(collected, "");
    } else {
      reply := Strip(text);
    }
  }

  /** What the agent's `ask_llm` method answers for `prompt`: `None` when it raises (the post
      failed with the real LLM in use). */
  function AskLlmReply(useRealLlm: bool, tree: Tree, order: seq<string>, features: seq<Feature>,
                       transport: Transport, prompt: string): Option<string>
  {
    match transport(FullPrompt(tree, order, features, prompt))
    case PostFailed => if useRealLlm then None else Some(OfflinePatch)
    case Streamed(lines, text) => Some(StreamReply(lines, text))
  }

  /** The LLM as the agent's callers see it: an agent built without the real LLM has its
      `ask_llm` replaced by the stub. */
  function Asker(useRealLlm: bool, tree: Tree, order: seq<string>, features: seq<Feature>,
                 transport: Transport): Llm
  {
    prompt => if useRealLlm then AskLlmReply(true, tree, order, features, transport, prompt) else Some(Stub)
  }

  /** Without the real LLM every prompt gets the stub diff and the chat endpoint is never
      posted to; with it, the call raises exactly when the post fails. */
  lemma AskerModes(tree: Tree, order: seq<string>, features: seq<Feature>, transport: Transport,
                   transport2: Transport, prompt: string)
    ensures Asker(false, tree, order, features, transport)(prompt) == Some(Stub)
      == Asker(false, tree, order, features, transport2)(prompt)
    ensures Asker(true, tree, order, features, transport)(prompt).None?
      <==> transport(FullPrompt(tree, order, features, prompt)).PostFailed?
  {
  }

  // ---------------------------------------------------------------------------------------------
  // Handling a message

  /** What a message asks for. */
  datatype Intent = FeatureRequest | SelfImprovement | Chat

  /** The intent of a stripped message, judged on its lower-cased text. */
  function Route(text: string): (intent: Intent)
    ensures intent == FeatureRequest <==>
      StartsWith(Lower(text), "i want you to implement") || StartsWith(Lower(text), "please implement")
    ensures intent == SelfImprovement <==> Lower(text) == "self improve"
  {
    var lower := Lower(text);
    if StartsWith(lower, "i want you to implement") || StartsWith(lower, "please implement") then FeatureRequest
    else if lower == "self improve" then SelfImprovement
    else Chat
  }

  function FeatureReply(text: string): string {
    "Feature request received: '" + text + "'. I will include this in the next self-improve cycle."
  }

  const SuccessReply := "Self-improvement successful."
  const FailureReply := "Self-improvement failed; rolled back."

  /** The reply to a self-improvement request, from the value the second cycle returned: success
      only for the lower-case labels 'success' and 'partial'. */
  function ImprovementReply(result: CycleValue): string {
    if result == Label("success") || result == Label("partial") then SuccessReply else FailureReply
  }

  /** The two cycles of a self-improvement request, each asking the agent's LLM about the tree it
      starts on: the value of the second (`None` when either raises) and the tree left behind. */
  function ImproveTwice(tree: Tree, order: seq<string>, features: seq<Feature>, useRealLlm: bool,
                        transport: Transport, shell: Shell, hooks: Hooks): (Option<CycleValue>, Tree)
  {
    var first := Cycle(tree, order, features, Asker(useRealLlm, tree, order, features, transport), shell, hooks);
    if first.0.None? then first
    else Cycle(first.1, order, features, Asker(useRealLlm, first.1, order, features, transport), shell, hooks)
  }

  /** The live engine labels its outcomes 'Success', 'Partial' and 'Fail', so a self-improvement
      request that completes is always answered with the failure reply, whatever the cycles did. */
  lemma ImprovementAlwaysReportsFailure(tree: Tree, order: seq<string>, features: seq<Feature>,
                                        useRealLlm: bool, transport: Transport, shell: Shell, hooks: Hooks)
    requires ImproveTwice(tree, order, features, useRealLlm, transport, shell, hooks).0.Some?
    ensures ImprovementReply(ImproveTwice(tree, order, features, useRealLlm, transport, shell, hooks).0.value)
      == FailureReply
  {
    var first := Cycle(tree, order, features, Asker(useRealLlm, tree, order, features, transport), shell, hooks);
    var ask := Asker(useRealLlm, first.1, order, features, transport);
    match ask(SelfImprove.Prompt(first.1, order, features)) {
      case None =>
      case Some(raw) => OutcomeRange(Normalise(raw), first.1, shell, hooks);
    }
  }

  /** The observation `reset` gives for `pending` feature requests. */
  function ResetObservation(pending: nat): Observation {
    Observation(0.0, pending as real, 0.0)
  }

  /** The temperature chosen before a message is handled: the policy's action for the reset
      observation, or 0.5 without a policy. */
  function ChosenTemperature(policy: Option<Observation -> real>, pending: nat): real {
    match policy
    case Some(predict) => predict(ResetObservation(pending))
    case None => 0.5
  }

  /** The world outside the agent: the walk order of app/, the chat endpoint, the external tools
      and the engine's helpers, and the stamp and modification time new snapshots receive. */
  datatype World = World(order: seq<string>, transport: Transport, shell: Shell, hooks: Hooks,
                         stamp: string, mtime: int)

  /** The backup directory after a self-improvement request that started on `tree`: each cycle
      that began took one new snapshot of the tree it started on, so one when the first cycle
      raised and two otherwise. */
  ghost predicate ImprovementSnapshots(before: map<string, Entry>, after: map<string, Entry>, tree: Tree,
                                       features: seq<Feature>, useRealLlm: bool, world: World)
  {
    var first := Cycle(tree, world.order, features, Asker(useRealLlm, tree, world.order, features, world.transport),
                       world.shell, world.hooks);
    if first.0.None? then SnapshotAdded(before, after, tree, world.mtime)
    else exists mid :: SnapshotAdded(before, mid, tree, world.mtime) && SnapshotAdded(mid, after, first.1, world.mtime)
  }

  class Agent {
    const useRealLlm: bool
    /** The feature and message store. */
    const memory: Store
    /** The filesystem the engine and the snapshots work on. */
    const disk: Disk
    /** A snapshot manager of its own, which the agent never uses. */
    const snapshot: SnapshotManager
    /** The live self-improvement engine, which takes a new snapshot every cycle. */
    const improver: SelfImproveEngine
    var rlEnv: SelfImproveEnv?
    /** The loaded PPO policy's action for an observation, if one was loaded. */
    const policy: Option<Observation -> real>
    /** The second loaded PPO model's action for a last reward and a number of pending
        requests, if one was loaded. */
    const rlModel: Option<(real, nat) -> real>
    /** Unset until a message is handled or a step taken. */
    var temperature: Option<real>

    ghost predicate Valid()
      reads this, memory, disk
    {
      memory.Valid() && disk.src.Some? && improver.snapshot.disk == disk && !improver.skipBackups
      && rlEnv != null && rlEnv.agent == this && rlEnv.maxSteps == 50 && rlEnv.warmupEpisodes == 5
    }

    /** `policy` and `rlModel` are what loading the saved PPO model gave, if it could be loaded. */
    constructor (useRealLlm: bool, memory: Store, disk: Disk, testCmd: string,
                 policy: Option<Observation -> real>, rlModel: Option<(real, nat) -> real>)
      requires memory.Valid() && disk.src.Some?
      ensures Valid()
      ensures this.useRealLlm == useRealLlm && this.memory == memory && this.disk == disk
      ensures this.policy == policy && this.rlModel == rlModel && temperature == None
      ensures improver.testCmd == testCmd
      ensures fresh(rlEnv) && rlEnv.currentEpisode == 0 && rlEnv.stepCount == 0
    {
      this.useRealLlm := useRealLlm;
      this.memory := memory;
      this.disk := disk;
      snapshot := new SnapshotManager("app", "backups", disk);
      improver := new SelfImproveEngine(disk, testCmd, false);
      this.policy := policy;
      this.rlModel := rlModel;
      temperature := None;
      new;
      rlEnv := new SelfImproveEnv(this, true, 50, 5);
    }

    /** The `ask_llm` method of the class (an agent built without the real LLM hides it behind
        the stub). */
    method AskLlm(prompt: string, world: World) returns (r: Option<string>)
      requires disk.src.Some?
      ensures r == AskLlmReply(useRealLlm, disk.src.value, world.order, memory.features, world.transport, prompt)
    {
      var context := GatherContext(disk.src.value, world.order);
      var fullPrompt := context + "\n" + prompt;
      var features := memory.features;
      if features != [] {
        fullPrompt := fullPrompt + "\nImplement these features:\n" + FeatureBullets(features);
      }
      assert fullPrompt == FullPrompt(disk.src.value, world.order, features, prompt);
      var response := world.transport(fullPrompt);
      if response.PostFailed? {
        if !useRealLlm {
          return Some(OfflinePatch);
        }
        return None;
      }
      var reply := AssembleStream(response.lines, response.text);
      return Some(reply);
    }

    /** The self-improvement branch of `handle`: two cycles of the engine, with the second
        model's temperature chosen between them when that model was loaded, and the reply. */
    method ImproveSelf(world: World) returns (reply: Option<string>)
      requires Valid()
      modifies this, disk
      ensures Valid() && rlEnv == old(rlEnv)
      ensures var outcome := ImproveTwice(old(disk.src).value, world.order, memory.features, useRealLlm,
          world.transport, world.shell, world.hooks);
        disk.src == Some(outcome.1)
        && reply == (if outcome.0.None? then None else Some(ImprovementReply(outcome.0.value)))
      ensures reply.Some? ==> reply.value == FailureReply
      ensures ImprovementSnapshots(old(disk.backups), disk.backups, old(disk.src).value, memory.features, useRealLlm, world)
      ensures var first := Cycle(old(disk.src).value, world.order, memory.features,
          Asker(useRealLlm, old(disk.src).value, world.order, memory.features, world.transport), world.shell, world.hooks);
        temperature == if rlModel.Some? && first.0.Some? then Some(rlModel.value(0.0, |memory.features|))
          else old(temperature)
    {
      var result := CycleOnce(world);
      if result.None? {
        return None;
      }
      ghost var mid := disk.backups;
      if rlModel.Some? {
        temperature := Some(rlModel.value(0.0, |memory.features|));
      }
      result := CycleOnce(world);
      assert SnapshotAdded(old(disk.backups), mid, old(disk.src).value, world.mtime);
      if result.None? {
        return None;
      }
      ImprovementAlwaysReportsFailure(old(disk.src).value, world.order, memory.features, useRealLlm,
                                      world.transport, world.shell, world.hooks);
      return Some(ImprovementReply(result.value));
    }

    /** One cycle of the engine, asking the agent's LLM about the tree in app/. */
    method CycleOnce(world: World) returns (result: Option<CycleValue>)
      requires Valid()
      modifies disk
      ensures Valid()
      ensures var outcome := Cycle(old(disk.src).value, world.order, memory.features,
          Asker(useRealLlm, old(disk.src).value, world.order, memory.features, world.transport), world.shell, world.hooks);
        result == outcome.0 && disk.src == Some(outcome.1)
      ensures SnapshotAdded(old(disk.backups), disk.backups, old(disk.src).value, world.mtime)
    {
      var ask := Asker(useRealLlm, disk.src.value, world.order, memory.features, world.transport);
      result := improver.RunCycle(world.order, memory.features, ask, world.shell, world.hooks,
                                  world.stamp, world.mtime);
    }

    /** The feature-request branch of `handle`. */
    method RequestFeature(text: string) returns (reply: string)
      requires memory.Valid()
      modifies memory
      ensures memory.Valid() && memory.messages == old(memory.messages)
      ensures memory.features == if HasDescription(old(memory.features), text) then old(memory.features)
        else old(memory.features) + [Feature(old(memory.nextId), text)]
      ensures reply == FeatureReply(text)
      ensures unchanged(disk)
    {
      memory.SaveFeature(text);
      return FeatureReply(text);
    }

    /** The chat branch of `handle`: the LLM's reply, logged when it comes. */
    method Converse(text: string, world: World) returns (reply: Option<string>)
      requires disk.src.Some?
      modifies memory
      ensures reply == Asker(useRealLlm, disk.src.value, world.order, memory.features, world.transport)(text)
      ensures memory.messages == old(memory.messages) + if reply.Some? then [Message("ai", reply.value)] else []
      ensures memory.features == old(memory.features) && memory.nextId == old(memory.nextId)
      ensures unchanged(disk)
    {
      if !useRealLlm {
        reply := Some(Stub);
      } else {
        reply := AskLlm(text, world);
      }
      if reply.None? {
        return;
      }
      memory.SaveMessage("ai", reply.value);
    }

    /** The three ways `handle` answers a stripped message. */
    method Respond(text: string, world: World) returns (reply: Option<string>)
      requires Valid()
      modifies this, memory, disk
      ensures rlEnv == old(rlEnv) && unchanged(rlEnv)
      ensures Route(text) != SelfImprovement || rlModel.None? ==> temperature == old(temperature)
      ensures Route(text) == SelfImprovement && rlModel.Some? && reply.Some? ==>
        temperature == Some(rlModel.value(0.0, |old(memory.features)|))
      ensures Valid() && rlEnv == old(rlEnv)
      ensures memory.messages == old(memory.messages)
        + (if Route(text) == Chat && reply.Some? then [Message("ai", reply.value)] else [])
      ensures Route(text) == FeatureRequest ==>
        reply == Some(FeatureReply(text))
        && memory.features == (if HasDescription(old(memory.features), text) then old(memory.features)
          else old(memory.features) + [Feature(old(memory.nextId), text)])
        && disk.src == old(disk.src)
      ensures Route(text) != FeatureRequest ==> memory.features == old(memory.features)
      ensures Route(text) == Chat ==>
        reply == Asker(useRealLlm, old(disk.src).value, world.order, old(memory.features), world.transport)(text)
        && disk.src == old(disk.src)
      ensures var outcome := ImproveTwice(old(disk.src).value, world.order, old(memory.features), useRealLlm,
          world.transport, world.shell, world.hooks);
        Route(text) == SelfImprovement ==>
          disk.src == Some(outcome.1)
          && reply == (if outcome.0.None? then None else Some(ImprovementReply(outcome.0.value)))
      ensures Route(text) == SelfImprovement && reply.Some? ==> reply.value == FailureReply
      ensures Route(text) != SelfImprovement ==> disk.backups == old(disk.backups)
      ensures Route(text) == SelfImprovement ==>
        ImprovementSnapshots(old(disk.backups), disk.backups, old(disk.src).value, old(memory.features), useRealLlm, world)
    {
      var lower := Lower(text);
      if StartsWith(lower, "i want you to implement") || StartsWith(lower, "please implement") {
        assert Route(text) == FeatureRequest;
        var ack := RequestFeature(text);
        return Some(ack);
      }

      if lower == "self improve" {
        assert Route(text) == SelfImprovement;
        reply := ImproveSelf(world);
        return;
      }

      assert Route(text) == Chat;
      reply := Converse(text, world);
    }

    /** `handle`: the reply, `None` when an exception leaves the method. */
    method Handle(input: string, world: World) returns (reply: Option<string>)
      requires Valid()
      modifies this, memory, rlEnv, disk
      ensures Route(Strip(input)) != SelfImprovement || rlModel.None? ==>
        temperature == Some(ChosenTemperature(policy, |old(memory.features)|))
      ensures Route(Strip(input)) == SelfImprovement && rlModel.Some? && reply.Some? ==>
        temperature == Some(rlModel.value(0.0, |old(memory.features)|))
      ensures Valid() && rlEnv == old(rlEnv)
      ensures var text := Strip(input);
        memory.messages == old(memory.messages) + [Message("user", text)]
          + (if Route(text) == Chat && reply.Some? then [Message("ai", reply.value)] else [])
      ensures rlEnv.currentEpisode == old(rlEnv.currentEpisode) + 1 && rlEnv.stepCount == 0
      ensures rlEnv.lastReward == Some(0.0) && rlEnv.pending == Some(|old(memory.features)|)
      ensures var text := Strip(input);
        Route(text) == FeatureRequest ==>
          reply == Some(FeatureReply(text))
          && memory.features == (if HasDescription(old(memory.features), text) then old(memory.features)
            else old(memory.features) + [Feature(old(memory.nextId), text)])
          && disk.src == old(disk.src)
      ensures Route(Strip(input)) != FeatureRequest ==> memory.features == old(memory.features)
      ensures var text := Strip(input);
        Route(text) == Chat ==>
          reply == Asker(useRealLlm, old(disk.src).value, world.order, old(memory.features), world.transport)(text)
          && disk.src == old(disk.src)
      ensures var outcome := ImproveTwice(old(disk.src).value, world.order, old(memory.features), useRealLlm,
          world.transport, world.shell, world.hooks);
        Route(Strip(input)) == SelfImprovement ==>
          disk.src == Some(outcome.1)
          && reply == (if outcome.0.None? then None else Some(ImprovementReply(outcome.0.value)))
      ensures Route(Strip(input)) == SelfImprovement && reply.Some? ==> reply.value == FailureReply
      ensures Route(Strip(input)) != SelfImprovement ==> disk.backups == old(disk.backups)
      ensures Route(Strip(input)) == SelfImprovement ==>
        ImprovementSnapshots(old(disk.backups), disk.backups, old(disk.src).value, old(memory.features), useRealLlm, world)
    {
      var text := Strip(input);
      ghost var features := memory.features;
      ghost var messages := memory.messages + [Message("user", text)];
      memory.SaveMessage("user", text);

      var env := rlEnv;
      var obs := env.Reset();
      ghost var episode := env.currentEpisode;
      temperature := Some(ChosenTemperature(policy, |memory.features|));
      assert Valid() && memory.features == features && memory.messages == messages && disk.src == old(disk.src);
      assert disk.backups == old(disk.backups);

      reply := Respond(text, world);
      assert env.currentEpisode == episode && env.stepCount == 0;
      assert env.pending == Some(|features|) && env.lastReward == Some(0.0);
    }
  }

  class SelfImproveEnv {
    /** The agent whose engine the steps run. */
    const agent: Agent
    const useRealLlm: bool
    const maxSteps: int
    const warmupEpisodes: int
    var currentEpisode: nat
    var stepCount: nat
    /** Unset until the first `reset` or step. */
    var lastReward: Option<real>
    var pending: Option<nat>

    constructor (agent: Agent, useRealLlm: bool, maxSteps: int, warmupEpisodes: int)
      ensures this.agent == agent && this.useRealLlm == useRealLlm
      ensures this.maxSteps == maxSteps && this.warmupEpisodes == warmupEpisodes
      ensures currentEpisode == 0 && stepCount == 0 && lastReward == None && pending == None
    {
      this.agent := agent;
      this.useRealLlm := useRealLlm;
      this.maxSteps := maxSteps;
      this.warmupEpisodes := warmupEpisodes;
      currentEpisode := 0;
      stepCount := 0;
      lastReward := None;
      pending := None;
    }

    /** `reset`: a new episode. The observation's last component is the progress fraction, which
        raises a division by zero, after the counters are reset, when `maxSteps` is 0. */
    method Reset() returns (obs: Option<Observation>)
      modifies this
      ensures currentEpisode == old(currentEpisode) + 1 && stepCount == 0
      ensures lastReward == Some(0.0) && pending == Some(|agent.memory.features|)
      ensures obs.None? <==> maxSteps == 0
      ensures obs.Some? ==> obs.value == ResetObservation(|agent.memory.features|)
    {
      lastReward := Some(0.0);
      pending := Some(|agent.memory.features|);
      stepCount := 0;
      currentEpisode := currentEpisode + 1;
      if maxSteps == 0 {
        return None;
      }
      var progress := (stepCount as real) / (maxSteps as real);
      return Some(Observation(0.0, |agent.memory.features| as real, progress));
    }

    /** The outcome a step scores: `True` during warm-up, without running a cycle; afterwards one
        cycle of the agent's engine, a raise counting as `False`. */
    method StepOutcome(world: World) returns (warmup: bool, result: CycleValue)
      requires agent.Valid()
      modifies agent.disk
      ensures agent.Valid()
      ensures warmup <==> currentEpisode <= warmupEpisodes
      ensures warmup ==> unchanged(agent.disk) && result == Flag(true)
      ensures var outcome := Cycle(old(agent.disk.src).value, world.order, agent.memory.features,
          Asker(agent.useRealLlm, old(agent.disk.src).value, world.order, agent.memory.features, world.transport),
          world.shell, world.hooks);
        !warmup ==>
          agent.disk.src == Some(outcome.1) && result == StepResult(false, outcome.0)
          && SnapshotAdded(old(agent.disk.backups), agent.disk.backups, old(agent.disk.src).value, world.mtime)
    {
      warmup := currentEpisode <= warmupEpisodes;
      if warmup {
        return warmup, Flag(true);
      }
      var r := agent.CycleOnce(world);
      result := StepResult(false, r);
    }

    /** `step` with the temperature `action`: the observation, the reward and whether the episode
        ended (the episode is never truncated). */
    method Step(action: real, world: World) returns (obs: Observation, reward: real, terminated: bool)
      requires agent.Valid()
      modifies this, agent, agent.disk
      ensures agent.Valid() && agent.rlEnv == old(agent.rlEnv)
      ensures agent.temperature == Some(action)
      ensures currentEpisode == old(currentEpisode) && stepCount == old(stepCount) + 1
      ensures terminated <==> stepCount >= maxSteps
      ensures old(currentEpisode) <= warmupEpisodes ==>
        agent.disk.src == old(agent.disk.src) && agent.disk.backups == old(agent.disk.backups)
        && reward == Reward(true, terminated, Flag(true))
      ensures var outcome := Cycle(old(agent.disk.src).value, world.order, agent.memory.features,
          Asker(agent.useRealLlm, old(agent.disk.src).value, world.order, agent.memory.features, world.transport),
          world.shell, world.hooks);
        old(currentEpisode) > warmupEpisodes ==>
          agent.disk.src == Some(outcome.1) && reward == Reward(false, terminated, StepResult(false, outcome.0))
          && SnapshotAdded(old(agent.disk.backups), agent.disk.backups, old(agent.disk.src).value, world.mtime)
      ensures lastReward == Some(reward) && pending == Some(|agent.memory.features|)
      ensures obs == Observation(reward, |agent.memory.features| as real, stepCount as real)
    {
      agent.temperature := Some(action);
      var warmup, result := StepOutcome(world);

      stepCount := stepCount + 1;
      terminated := stepCount >= maxSteps;

      reward := Reward(warmup, terminated, result);

      lastReward := Some(reward);
      pending := Some(|agent.memory.features|);
      obs := Observation(reward, |agent.memory.features| as real, stepCount as real);
    }
  }

  /** After warm-up, the environment's step with the agent's own asker earns -1 when it ends the
      episode and -0.01 otherwise: the reward compares the engine's outcome with lower-case labels,
      and the engine's labels are capitalised. */
  lemma LiveRewardAfterWarmup(tree: Tree, world: World, features: seq<Feature>, useRealLlm: bool, terminated: bool)
    ensures var outcome := Cycle(tree, world.order, features,
        Asker(useRealLlm, tree, world.order, features, world.transport), world.shell, world.hooks);
      Reward(false, terminated, StepResult(false, outcome.0)) == if terminated then -1.0 else -0.01
  {
    LiveTerminalPenalty(tree, world.order, features, Asker(useRealLlm, tree, world.order, features, world.transport),
                        world.shell, world.hooks, terminated);
  }
}
