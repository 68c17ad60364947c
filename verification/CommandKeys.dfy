/** From the command line to an executor and back: how a create command path becomes a record
    (cli/cmd/command.go) and how destroy finds the executor of that record again
    (cli/cmd/exp.go, cli/cmd/destroy.go). */
module CommandKeys {
  import opened Wrappers
  import opened Text

  /** The key under which an executor is registered: the non-empty parts joined by hyphens. */
  function Hyphenate(key: string, part: string): string {
    if part == "" then key
    else if key != "" then key + "-" + part
    else part
  }

  function CreateExecutorKey(target: string, actionTarget: string, action: string): string {
    Hyphenate(Hyphenate(target, actionTarget), action)
  }

  /** The loop that builds a key. */
  method BuildExecutorKey(target: string, actionTarget: string, action: string) returns (key: string)
    ensures key == CreateExecutorKey(target, actionTarget, action)
  {
    key := target;
    var parts := [actionTarget, action];
    for i := 0 to 2
      invariant i == 0 ==> key == target
      invariant i == 1 ==> key == Hyphenate(target, actionTarget)
      invariant i == 2 ==> key == CreateExecutorKey(target, actionTarget, action)
    {
      if parts[i] != "" {
        key := if key != "" then key + "-" + parts[i] else parts[i];
      }
    }
  }

  datatype RecordedCommand = RecordedCommand(command: string, subCommand: string)

  /** parseCommandPath: "blade create docker cpu fullload" is recorded as docker, "cpu fullload". */
  function ParseCommandPath(path: string): Option<RecordedCommand> {
    var words := SplitN(path, ' ', 4);
    if |words| < 4 then None else Some(RecordedCommand(words[2], words[3]))
  }

  /** The words destroy takes from a record: the action and, when there is one, its target. */
  function ActionWords(subCommand: string): (string, string) {
    var words := Split(subCommand, ' ');
    if |words| > 1 then (words[|words| - 2], words[|words| - 1]) else ("", words[0])
  }

  /** getExecutorAndExpModelByRecord's lookup key. */
  function KeyOfRecord(r: RecordedCommand): string {
    var (actionTarget, action) := ActionWords(r.subCommand);
    CreateExecutorKey(r.command, actionTarget, action)
  }

  predicate KeepsPlainName(scope: string) {
    scope == "" || scope == "host" || scope == "docker" || scope == "cri" || scope == "operator"
  }

  /** registerExpCommand's command name: the target, under its scope unless the scope is a plain one. */
  function CommandName(scope: string, target: string): string {
    if KeepsPlainName(scope) then target else scope + "-" + target
  }

  predicate IsWord(w: string) {
    w != "" && ' ' !in w
  }

  /** The path cobra prints for an experiment command, under its parent command if it has one. */
  function CreatePath(root: string, verb: string, parent: string, name: string, action: string): string {
    root + " " + (verb + " " + (if parent == "" then name + " " + action
                                else parent + " " + (name + " " + action)))
  }

  lemma PathIsRecorded(root: string, verb: string, parent: string, name: string, action: string)
    requires IsWord(root) && IsWord(verb) && IsWord(name) && IsWord(action)
    requires parent == "" || IsWord(parent)
    ensures ParseCommandPath(CreatePath(root, verb, parent, name, action)) ==
            Some(if parent == "" then RecordedCommand(name, action)
                 else RecordedCommand(parent, name + " " + action))
  {
    var tail := if parent == "" then name + " " + action else parent + " " + (name + " " + action);
    SplitNFirst(root, verb + " " + tail, ' ', 4);
    SplitNFirst(verb, tail, ' ', 3);
    if parent == "" {
      SplitNFirst(name, action, ' ', 2);
    } else {
      SplitNFirst(parent, name + " " + action, ' ', 2);
    }
  }

  /** Whatever was registered is found again: splitting the create path into a record and
      re-parsing that record yields exactly the key of the registration. */
  lemma RecordFindsItsExecutor(
      root: string, verb: string, parent: string, name: string, action: string)
    requires IsWord(root) && IsWord(verb) && IsWord(name) && IsWord(action)
    requires parent == "" || IsWord(parent)
    ensures var r := ParseCommandPath(CreatePath(root, verb, parent, name, action));
            r.Some? && KeyOfRecord(r.value) == CreateExecutorKey(parent, name, action)
  {
    PathIsRecorded(root, verb, parent, name, action);
    SplitSingle(action, ' ');
    if parent != "" {
      SplitFirst(name, action, ' ');
      assert Split(name + " " + action, ' ') == [name, action];
    }
  }

  // ---------------------------------------------------------------- when keys coincide

  function Hyphened(x: string, y: string): string { x + "-" + y }

  /** A hyphenated piece moved from the right part to the left one: x, w-y' became x-w, y'. */
  predicate Slides(x: string, y: string, x': string, y': string) {
    && |x| < |x'| && x'[..|x|] == x && x'[|x|] == '-'
    && y == Hyphened(x'[|x| + 1..], y')
  }

  /** Two hyphened pairs read the same exactly when they are the same pair or a piece slid. */
  lemma HyphenedCoincideExactlyWhen(x: string, y: string, x': string, y': string)
    ensures Hyphened(x, y) == Hyphened(x', y') <==>
            (x == x' && y == y') || Slides(x, y, x', y') || Slides(x', y', x, y)
  {
    if |x| <= |x'| {
      SlidesOrSame(x, y, x', y');
    } else {
      SlidesOrSame(x', y', x, y);
    }
  }

  lemma SlidesOrSame(x: string, y: string, x': string, y': string)
    requires |x| <= |x'|
    ensures Hyphened(x, y) == Hyphened(x', y') <==> (x == x' && y == y') || Slides(x, y, x', y')
  {
    var k, k' := Hyphened(x, y), Hyphened(x', y');
    assert k[..|x|] == x && k[|x| + 1..] == y && k'[..|x'|] == x' && k'[|x'| + 1..] == y';
    if |x| < |x'| {
      var w := x'[|x| + 1..];
      assert k'[..|x|] == x'[..|x|] && k'[|x|] == x'[|x|] && k'[|x| + 1..] == Hyphened(w, y');
      assert k == k[..|x|] + [k[|x|]] + k[|x| + 1..] && k' == k'[..|x|] + [k'[|x|]] + k'[|x| + 1..];
    }
  }

  /** What precedes the action in a key. */
  function Stem(parent: string, name: string): string {
    if parent == "" then name else Hyphened(parent, name)
  }

  /** For all registrations: two keys are equal exactly when stems and actions are, or when a
      hyphenated piece moved between stem and action. */
  lemma AnyKeysCoincideExactlyWhen(
      parent: string, name: string, action: string, parent': string, name': string, action': string)
    requires name != "" && action != "" && name' != "" && action' != ""
    ensures CreateExecutorKey(parent, name, action) == CreateExecutorKey(parent', name', action') <==>
            || (Stem(parent, name) == Stem(parent', name') && action == action')
            || Slides(Stem(parent, name), action, Stem(parent', name'), action')
            || Slides(Stem(parent', name'), action', Stem(parent, name), action)
  {
    HyphenedCoincideExactlyWhen(Stem(parent, name), action, Stem(parent', name'), action');
  }

  /** With hyphen-free parents and actions and arbitrary names, as the Kubernetes scopes make them,
      two keys are equal exactly when the registrations are, or when one has no parent and its name
      is the other's parent and name hyphened. */
  lemma KeysCoincideExactlyWhen(
      parent: string, name: string, action: string, parent': string, name': string, action': string)
    requires name != "" && action != "" && name' != "" && action' != ""
    requires '-' !in parent && '-' !in action && '-' !in parent' && '-' !in action'
    ensures CreateExecutorKey(parent, name, action) == CreateExecutorKey(parent', name', action') <==>
            && action == action'
            && (|| (parent == parent' && name == name')
                || (parent == "" != parent' && name == Hyphened(parent', name'))
                || (parent' == "" != parent && name' == Hyphened(parent, name)))
  {
    AnyKeysCoincideExactlyWhen(parent, name, action, parent', name', action');
    HyphenFreeNeverSlides(Stem(parent, name), action, Stem(parent', name'), action');
    HyphenFreeNeverSlides(Stem(parent', name'), action', Stem(parent, name), action);
    HyphenedCoincideExactlyWhen(parent, name, parent', name');
    HyphenFreeNeverSlides(parent, name, parent', name');
    HyphenFreeNeverSlides(parent', name', parent, name);
  }

  lemma HyphenFreeNeverSlides(x: string, y: string, x': string, y': string)
    ensures Slides(x, y, x', y') ==> '-' in x' && '-' in y
  {
    if Slides(x, y, x', y') {
      assert y[|x'[|x| + 1..]|] == '-';
    }
  }

  /** The last case happens: a top-level command can take the key of a Kubernetes one. */
  lemma KeysCanCollide()
    ensures CreateExecutorKey("k8s", CommandName("pod", "cpu"), "load") == CreateExecutorKey("", "k8s-pod-cpu", "load")
  {
    KeysCoincideExactlyWhen("k8s", "pod-cpu", "load", "", "k8s-pod-cpu", "load");
  }
}
