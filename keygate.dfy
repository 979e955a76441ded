/**
 * Key acquisition at the start of a sync (signin.js:290-308): import the
 * stored `bliss:enc-key`; failing that, generate and store a fresh key
 * when the remote list is empty, and prompt for a key while the remote
 * list is non-empty and the key text is empty.
 */
module KeyGate {
  import opened Wrappers
  import opened Bytes
  import opened Buffers
  import opened Platform
  import opened Codec
  import opened Stores

  const EncKeyName: string := "bliss:enc-key"

  /** The 32 bytes `crypto.getRandomValues(new Uint8Array(32))` fills. */
  type KeyBytes = s: seq<byte> | |s| == 32 witness seq(32, _ => 0)

  /** `!key64` for a string or `null`. */
  predicate Falsy(key64: Option<string>)
  {
    key64.None? || key64.value == ""
  }

  /**
   * Where the gate leaves the engine: the key text and the imported key
   * (either may be missing) after some number of prompts, or still
   * prompting once the answers given have run out.
   */
  datatype Gate =
    | Ready(key64: Option<string>, key: Option<Key>, prompts: nat)
    | Blocked(prompts: nat)

  /** The index of the first non-empty answer, or `|answers|` when there is none. */
  function FirstNonEmpty(answers: seq<Option<string>>): (i: nat)
    ensures i <= |answers|
    ensures forall j :: 0 <= j < i ==> Falsy(answers[j])
    ensures i < |answers| ==> !Falsy(answers[i])
  {
    if answers == [] then 0
    else if !Falsy(answers[0]) then 0
    else 1 + FirstNonEmpty(answers[1..])
  }

  /**
   * The outcome of the prompt loop (signin.js:303-307): no prompt unless
   * there are remote items and the key text is empty; otherwise the first
   * non-empty answer is taken as key text and imported, valid or not.
   */
  function PromptOutcome(itemCount: nat, key64: Option<string>, key: Option<Key>,
                         answers: seq<Option<string>>): Gate
  {
    if itemCount == 0 || !Falsy(key64) then Ready(key64, key, 0)
    else
      var i := FirstNonEmpty(answers);
      if i == |answers| then Blocked(|answers|)
      else Ready(answers[i], ImportKey(answers[i]), i + 1)
  }

  /** The prompt loop; `answers` are what successive `window.prompt` calls return. */
  method PromptLoop(itemCount: nat, key64: Option<string>, key: Option<Key>,
                    answers: seq<Option<string>>) returns (g: Gate)
    ensures g == PromptOutcome(itemCount, key64, key, answers)
  {
    var text, imported, asked := key64, key, 0;
    while itemCount > 0 && Falsy(text)
      invariant asked <= |answers|
      invariant forall j :: 0 <= j < asked - 1 ==> Falsy(answers[j])
      invariant asked == 0 ==> text == key64 && imported == key
      invariant asked > 0 ==> itemCount > 0 && Falsy(key64)
      invariant asked > 0 ==> text == answers[asked - 1] && imported == ImportKey(text)
      decreases |answers| - asked
    {
      if asked == |answers| {
        return Blocked(asked);
      }
      text := answers[asked];
      imported := ImportKey(text);
      asked := asked + 1;
    }
    g := Ready(text, imported, asked);
  }

  /** The gate's outcome and the key text it stored, if it generated one. */
  datatype GateRun = GateRun(gate: Gate, generated: Option<string>)

  /** The whole gate, from the stored key text, the remote item count and the random bytes for a new key. */
  function KeyGateOutcome(stored: Option<string>, itemCount: nat, random: KeyBytes,
                          answers: seq<Option<string>>): GateRun
  {
    var key := ImportKey(stored);
    if key.Some? then GateRun(Ready(stored, key, 0), None)
    else if itemCount == 0 then
      var key64 := Some(BufferToBase64(random));
      GateRun(PromptOutcome(itemCount, key64, None, answers), key64)
    else GateRun(PromptOutcome(itemCount, stored, None, answers), None)
  }

  /** The gate run against `localStorage`. */
  method AcquireKey(ls: LocalStorage, itemCount: nat, random: KeyBytes,
                    answers: seq<Option<string>>) returns (g: Gate)
    modifies ls
    ensures var run := KeyGateOutcome(old(ls.GetItem(EncKeyName)), itemCount, random, answers);
      && g == run.gate
      && ls.entries == if run.generated.Some? then old(ls.entries)[EncKeyName := run.generated.value]
                       else old(ls.entries)
  {
    var key64 := ls.GetItem(EncKeyName);
    var key := ImportKey(key64);
    if key.None? {
      if itemCount == 0 {
        key64 := Some(BufferToBase64(random));
        ls.SetItem(EncKeyName, key64.value);
      }
      g := PromptLoop(itemCount, key64, key, answers);
    } else {
      g := Ready(key64, key, 0);
    }
  }

  /** A key is generated and stored exactly when the import failed and the remote list is empty. */
  lemma GeneratesOnlyForEmptyRemote(stored: Option<string>, itemCount: nat, random: KeyBytes,
                                    answers: seq<Option<string>>)
    ensures var run := KeyGateOutcome(stored, itemCount, random, answers);
      run.generated.Some? <==> ImportKey(stored).None? && itemCount == 0
    ensures var run := KeyGateOutcome(stored, itemCount, random, answers);
      run.generated.Some? ==> ImportKey(run.generated) == Some(Key(random))
  {
    ImportEncodedKey(random);
  }

  /**
   * As written, the freshly generated key is stored but never imported:
   * the gate ends with the key text set and no key.
   */
  lemma GeneratedKeyLeftUnimported(stored: Option<string>, random: KeyBytes,
                                   answers: seq<Option<string>>)
    requires ImportKey(stored).None?
    ensures KeyGateOutcome(stored, 0, random, answers).gate == Ready(Some(BufferToBase64(random)), None, 0)
  {
  }

  /**
   * As written, the prompt loop tests only whether the key text is empty:
   * with remote items, stored key text that does not import is kept
   * without a prompt, and the gate ends without a key.
   */
  lemma InvalidStoredKeySkipsPrompt(stored: string, itemCount: nat, random: KeyBytes,
                                    answers: seq<Option<string>>)
    requires itemCount > 0 && stored != "" && ImportKey(Some(stored)).None?
    ensures KeyGateOutcome(Some(stored), itemCount, random, answers) == GateRun(Ready(Some(stored), None, 0), None)
  {
  }

  /**
   * With remote items and no key text stored, no key is generated; the gate
   * waits for a non-empty answer and imports it.
   */
  lemma MissingKeyWithRemoteItemsPrompts(stored: Option<string>, itemCount: nat, random: KeyBytes,
                                         answers: seq<Option<string>>)
    requires itemCount > 0 && Falsy(stored)
    ensures var run := KeyGateOutcome(stored, itemCount, random, answers);
      && run.generated.None?
      && (run.gate.Blocked? <==> forall j :: 0 <= j < |answers| ==> Falsy(answers[j]))
      && (run.gate.Ready? ==> run.gate.prompts > 0 && !Falsy(run.gate.key64)
                              && run.gate.key == ImportKey(run.gate.key64))
  {
    if stored.None? {
      ImportMissingKeyFails();
    } else {
      Base64ToBytesIsDecode(stored.value);
    }
    var i := FirstNonEmpty(answers);
    if i == |answers| {
      assert forall j :: 0 <= j < |answers| ==> Falsy(answers[j]);
    }
  }

  /** Whenever the gate ends holding a key, that key is the import of the key text it ends with. */
  lemma KeyMatchesKeyText(stored: Option<string>, itemCount: nat, random: KeyBytes,
                          answers: seq<Option<string>>)
    ensures var g := KeyGateOutcome(stored, itemCount, random, answers).gate;
      g.Ready? && g.key.Some? ==> g.key == ImportKey(g.key64)
  {
  }
}
