/**
 * The client diagnostics. KubeconfigContexts describes every context of the
 * client configuration (kubeconfig) and singles out the current one;
 * ContactMaster explains, case by case, why the project list could not be
 * requested from the master. TestContext looks a context and its cluster up.
 */
module Client {
  import opened Wrappers
  import opened Report
  import opened Text
  import opened Types

  // ---------------------------------------------------------------------
  // TestContext

  function NotDefinedText(contextName: string): string {
    "kubeconfig context '" + contextName + "' is not defined."
  }

  function NoClusterText(contextName: string, clusterName: string): string {
    "kubeconfig context '" + contextName + "' has a cluster '" + clusterName + "' which is not defined."
  }

  function ContextText(server: string, authInfo: string, project: string): string {
    "\nThe server URL is '" + server + "'\nThe user authentication is '" + authInfo + "'\nThe project is '" + project + "'"
  }

  /** The project a context works in: its namespace, or "default" (which OpenShift fills in) when it has none. */
  function Project(c: Context): (p: string)
    ensures p != ""
    ensures c.namespace != "" ==> p == c.namespace
    ensures c.namespace == "" ==> p == "default"
  {
    if c.namespace == "" then "default" else c.namespace
  }

  /**
   * TestContext: the description of a context and whether it is usable, that
   * is, whether the context is defined and so is the cluster it names.
   */
  function TestContext(contextName: string, config: Kubeconfig): (r: (string, bool))
    ensures r.1 <==> contextName in config.contexts && config.contexts[contextName].cluster in config.clusters
    ensures contextName !in config.contexts ==> r.0 == NotDefinedText(contextName)
    ensures contextName in config.contexts && !r.1 ==>
      r.0 == NoClusterText(contextName, config.contexts[contextName].cluster)
    ensures r.1 ==>
      var c := config.contexts[contextName];
      r.0 == ContextText(config.clusters[c.cluster].server, c.authInfo, Project(c))
  {
    if contextName !in config.contexts then (NotDefinedText(contextName), false)
    else
      var context := config.contexts[contextName];
      if context.cluster !in config.clusters then (NoClusterText(contextName, context.cluster), false)
      else
        var cluster := config.clusters[context.cluster];
        (ContextText(cluster.server, context.authInfo, Project(context)), true)
  }

  /**
   * The verdict on a context reads nothing but that context and the cluster
   * it names: the other contexts, the other clusters and the current
   * context do not matter.
   */
  lemma TestContextIsLocal(contextName: string, config: Kubeconfig, other: Kubeconfig)
    requires contextName in config.contexts <==> contextName in other.contexts
    requires contextName in config.contexts ==>
      && other.contexts[contextName] == config.contexts[contextName]
      && var cluster := config.contexts[contextName].cluster;
         && (cluster in config.clusters <==> cluster in other.clusters)
         && (cluster in config.clusters ==> other.clusters[cluster] == config.clusters[cluster])
    ensures TestContext(contextName, other) == TestContext(contextName, config)
  {
  }

  // ---------------------------------------------------------------------
  // KubeconfigContexts

  const NoKubeconfigReason := "There is no .kubeconfig file"

  /** The Condition of KubeconfigContexts: skip exactly when no client configuration was read. */
  function ContextsCondition(env: Environment): (v: Verdict)
    ensures v.skip <==> env.kubeconfig.None?
    ensures v.skip ==> v.reason == NoKubeconfigReason
    ensures !v.skip ==> v.reason == ""
  {
    if env.kubeconfig.None? then Verdict(true, NoKubeconfigReason) else Verdict(false, "")
  }

  const TestingText := "Testing server configuration(s) from kubeconfig"

  function ForContextText(context: string, result: string): string {
    "For kubeconfig context '" + context + "':" + result
  }

  function CurrentContextText(cc: string, ccResult: string): string {
    "\nThe current context from kubeconfig is '" + cc + "'\nThis will be used by default to contact your OpenShift server.\n"
    + ccResult
  }

  /** The opening of the Error about an undefined current context. */
  function MissingCurrentText(cc: string): string {
    "\nYour kubeconfig specifies a current context of '" + cc + "'\nwhich is not defined"
  }

  /** How a context other than the current one is reported: at Info when it is usable, at Warn otherwise. */
  function ContextReport(kc: Kubeconfig, context: string): (e: Emission)
    ensures e.level == (if TestContext(context, kc).1 then Info else Warn)
  {
    var (result, success) := TestContext(context, kc);
    Emission(if success then Info else Warn, ForContextText(context, result))
  }

  /** What the loop logs for one context: the current context is held back for the end. */
  function ContextNote(kc: Kubeconfig, context: string): seq<Emission> {
    if context == kc.currentContext then [] else [ContextReport(kc, context)]
  }

  /** The report that closes the run: the current context at Info or Error, or one Error when it is not defined. */
  function CurrentNote(kc: Kubeconfig): (e: Emission)
    ensures e.level == Info <==> kc.currentContext in kc.contexts && TestContext(kc.currentContext, kc).1
    ensures e.level != Info ==> e.level == Error
  {
    var cc := kc.currentContext;
    if cc in kc.contexts then
      var (result, success) := TestContext(cc, kc);
      Emission(if success then Info else Error, CurrentContextText(cc, ForContextText(cc, result)))
    else Emission(Error, MissingCurrentText(cc))
  }

  /** What the Run of KubeconfigContexts logs when the contexts are visited in the order `order`. */
  function ContextsOutput(kc: Kubeconfig, order: seq<string>): seq<Emission> {
    [Emission(Info, TestingText)] + Concat(c => ContextNote(kc, c), order) + [CurrentNote(kc)]
  }

  /**
   * The Run of KubeconfigContexts on a client configuration. Go ranges over
   * the contexts map in an order of its choosing; `order` is that order.
   */
  method ContextsRun(kc: Kubeconfig, order: seq<string>) returns (out: seq<Emission>)
    requires Enumerates(order, kc.contexts.Keys)
    ensures out == ContextsOutput(kc, order)
  {
    var cc := kc.currentContext;
    var notes, ccResult, ccSuccess := ContextsLoop(kc, order);
    out := [Emission(Info, TestingText)] + notes;
    if cc in kc.contexts {
      assert cc in order;
      ccResult := CurrentContextText(cc, ccResult);
      if ccSuccess {
        out := out + [Emission(Info, ccResult)];
      } else {
        out := out + [Emission(Error, ccResult)];
      }
    } else {
      out := out + [Emission(Error, MissingCurrentText(cc))];
    }
  }

  /**
   * The loop of the Run: report each context other than the current one,
   * and keep the result of the current one for the end.
   */
  method ContextsLoop(kc: Kubeconfig, order: seq<string>) returns (notes: seq<Emission>, ccResult: string, ccSuccess: bool)
    ensures notes == Concat(c => ContextNote(kc, c), order)
    ensures kc.currentContext in order ==>
      ccResult == ForContextText(kc.currentContext, TestContext(kc.currentContext, kc).0)
      && ccSuccess == TestContext(kc.currentContext, kc).1
  {
    var cc := kc.currentContext;
    notes, ccResult, ccSuccess := [], "", false;
    var i := 0;
    while i < |order|
      invariant 0 <= i <= |order|
      invariant notes == Concat(c => ContextNote(kc, c), order[..i])
      invariant cc in order[..i] ==>
        ccResult == ForContextText(cc, TestContext(cc, kc).0) && ccSuccess == TestContext(cc, kc).1
    {
      var context := order[i];
      ConcatStep(c => ContextNote(kc, c), order, i);
      assert order[..i + 1] == order[..i] + [context];
      var (result, success) := TestContext(context, kc);
      result := ForContextText(context, result);
      if context == cc {
        ccResult, ccSuccess := result, success;
      } else if success {
        notes := notes + [Emission(Info, result)];
      } else {
        notes := notes + [Emission(Warn, result)];
      }
      i := i + 1;
    }
    assert order[..i] == order;
  }

  /** The contexts of `order` other than the current one, in order. */
  function NonCurrent(cc: string, order: seq<string>): (r: seq<string>)
    ensures |r| <= |order|
  {
    if |order| == 0 then []
    else NonCurrent(cc, order[..|order| - 1]) + (if order[|order| - 1] == cc then [] else [order[|order| - 1]])
  }

  /** The reports of the given contexts, one each, in order. */
  function Reports(kc: Kubeconfig, contexts: seq<string>): (r: seq<Emission>)
    ensures |r| == |contexts|
  {
    seq(|contexts|, k requires 0 <= k < |contexts| => ContextReport(kc, contexts[k]))
  }

  /** The loop logs exactly one report per non-current context, in the order visited. */
  lemma {:induction false} LoopReportsNonCurrent(kc: Kubeconfig, order: seq<string>)
    ensures Concat(c => ContextNote(kc, c), order) == Reports(kc, NonCurrent(kc.currentContext, order))
    decreases |order|
  {
    if |order| > 0 {
      var init, last := order[..|order| - 1], order[|order| - 1];
      LoopReportsNonCurrent(kc, init);
      var rest := NonCurrent(kc.currentContext, init);
      if last != kc.currentContext {
        assert Reports(kc, rest + [last]) == Reports(kc, rest) + [ContextReport(kc, last)];
      }
    }
  }

  lemma {:induction false} NonCurrentMembers(cc: string, order: seq<string>, x: string)
    ensures x in NonCurrent(cc, order) <==> x in order && x != cc
    decreases |order|
  {
    if |order| > 0 {
      var init := order[..|order| - 1];
      NonCurrentMembers(cc, init, x);
      assert order == init + [order[|order| - 1]];
    }
  }

  /** Visiting each context once visits each non-current context once. */
  lemma NonCurrentEnumerates(cc: string, order: seq<string>, keys: set<string>)
    requires Enumerates(order, keys)
    ensures Enumerates(NonCurrent(cc, order), keys - {cc})
  {
    var r := NonCurrent(cc, order);
    forall x | x in keys - {cc}
      ensures x in r
    {
      NonCurrentMembers(cc, order, x);
    }
    forall k | 0 <= k < |r|
      ensures r[k] in keys - {cc}
    {
      NonCurrentMembers(cc, order, r[k]);
    }
    NonCurrentDistinct(cc, order);
  }

  lemma {:induction false} NonCurrentDistinct(cc: string, order: seq<string>)
    requires forall i, j :: 0 <= i < j < |order| ==> order[i] != order[j]
    ensures var r := NonCurrent(cc, order); forall i, j :: 0 <= i < j < |r| ==> r[i] != r[j]
    decreases |order|
  {
    if |order| > 0 {
      var init, last := order[..|order| - 1], order[|order| - 1];
      NonCurrentDistinct(cc, init);
      if last != cc {
        NonCurrentMembers(cc, init, last);
        var rest := NonCurrent(cc, init);
        var r := rest + [last];
        forall i, j | 0 <= i < j < |r|
          ensures r[i] != r[j]
        {
          if j == |rest| {
            assert r[i] in rest;
          }
        }
      }
    }
  }

  /**
   * Each context other than the current one is reported exactly once, at
   * Info when usable and Warn otherwise, in the order visited; then the
   * current context closes the report.
   */
  lemma ContextsReport(kc: Kubeconfig, order: seq<string>)
    requires Enumerates(order, kc.contexts.Keys)
    ensures
      var others := NonCurrent(kc.currentContext, order);
      && Enumerates(others, kc.contexts.Keys - {kc.currentContext})
      && ContextsOutput(kc, order) == [Emission(Info, TestingText)] + Reports(kc, others) + [CurrentNote(kc)]
  {
    NonCurrentEnumerates(kc.currentContext, order, kc.contexts.Keys);
    LoopReportsNonCurrent(kc, order);
  }

  /** Errors come only from the current context: exactly one, unless it is defined and usable. */
  lemma ContextsErrors(kc: Kubeconfig, order: seq<string>)
    ensures CountAt(ContextsOutput(kc, order), Error)
            == (if kc.currentContext in kc.contexts && TestContext(kc.currentContext, kc).1 then 0 else 1)
  {
    LoopReportsNonCurrent(kc, order);
    var head, body, tail := [Emission(Info, TestingText)], Reports(kc, NonCurrent(kc.currentContext, order)), [CurrentNote(kc)];
    assert CountAt(body, Error) == 0;
    CountAtOne(head[0], Error);
    CountAtOne(tail[0], Error);
    CountAtAppend(head, body, Error);
    CountAtAppend(head + body, tail, Error);
  }

  // ---------------------------------------------------------------------
  // ContactMaster

  /** Why the request failed, as the switch of ContactMaster explains it. */
  datatype Reason =
    | NoResolve
    | UnknownCa
    | UnneededCa
    | InvalidCertName(serverHost: string)
    | ConnRefused
    | ConnTimeout
    | MalformedHttp
    | MalformedTls
    | Unexplained

  const NoResolvePattern := "dial tcp: lookup (\\S+): no such host"
  const UnknownCaMsg := "x509: certificate signed by unknown authority"
  const UnneededCaMsg := "specifying a root certificates file with the insecure flag is not allowed"
  const InvalidCertNamePattern := "x509: certificate is valid for (\\S+, )+not (\\S+)"
  const ConnRefusedPattern := "dial tcp (\\S+): connection refused"
  const ConnTimeoutPattern := "dial tcp (\\S+): connection timed out"
  const MalformedHttpMsg := "malformed HTTP response"
  const MalformedTlsMsg := "tls: oversized record received with length"

  /** The test of the k-th case of the switch, in the order the cases are written. */
  predicate CaseHolds(re: RegexOracle, msg: string, k: nat) {
    match k
    case 0 => MatchString(re, NoResolvePattern, msg)
    case 1 => Contains(msg, UnknownCaMsg)
    case 2 => Contains(msg, UnneededCaMsg)
    case 3 => MatchString(re, InvalidCertNamePattern, msg)
    case 4 => MatchString(re, ConnRefusedPattern, msg)
    case 5 => MatchString(re, ConnTimeoutPattern, msg)
    case 6 => Contains(msg, MalformedHttpMsg)
    case 7 => Contains(msg, MalformedTlsMsg)
    case _ => false
  }

  /** The position of a reason's case in the switch; the default comes last. */
  function Rank(r: Reason): nat {
    match r
    case NoResolve => 0
    case UnknownCa => 1
    case UnneededCa => 2
    case InvalidCertName(_) => 3
    case ConnRefused => 4
    case ConnTimeout => 5
    case MalformedHttp => 6
    case MalformedTls => 7
    case Unexplained => 8
  }

  /**
   * The switch of ContactMaster: the reason is the first case whose test
   * holds, or the default when none does. An invalid certificate name
   * reports the last submatch, the host the client asked for.
   */
  function Classify(re: RegexOracle, msg: string): (r: Reason)
    ensures Rank(r) < 8 ==> CaseHolds(re, msg, Rank(r))
    ensures forall k :: 0 <= k < Rank(r) ==> !CaseHolds(re, msg, k)
    ensures r.InvalidCertName? ==> r.serverHost == re(InvalidCertNamePattern, msg).value.Last()
  {
    if MatchString(re, NoResolvePattern, msg) then NoResolve
    else if Contains(msg, UnknownCaMsg) then UnknownCa
    else if Contains(msg, UnneededCaMsg) then UnneededCa
    else if MatchString(re, InvalidCertNamePattern, msg) then
      var m := re(InvalidCertNamePattern, msg).value;
      InvalidCertName(m.Last())
    else if MatchString(re, ConnRefusedPattern, msg) then ConnRefused
    else if MatchString(re, ConnTimeoutPattern, msg) then ConnTimeout
    else if Contains(msg, MalformedHttpMsg) then MalformedHttp
    else if Contains(msg, MalformedTlsMsg) then MalformedTls
    else Unexplained
  }

  /** Any reason that is the first case to hold is the one Classify picks: the first match is unique. */
  lemma FirstMatchingCase(re: RegexOracle, msg: string, r: Reason)
    requires Rank(r) < 8 ==> CaseHolds(re, msg, Rank(r))
    requires forall k :: 0 <= k < Rank(r) ==> !CaseHolds(re, msg, k)
    ensures Rank(r) == Rank(Classify(re, msg))
  {
    var c := Classify(re, msg);
    if Rank(r) < Rank(c) {
      assert !CaseHolds(re, msg, Rank(r));
    }
  }

  /** A message naming the unknown authority is never explained as a hostname problem. */
  lemma UnknownAuthorityBeatsCertName(re: RegexOracle, prefix: string)
    requires !MatchString(re, NoResolvePattern, prefix + UnknownCaMsg)
    ensures Classify(re, prefix + UnknownCaMsg) == UnknownCa
  {
    ContainsSuffix(prefix, UnknownCaMsg);
  }

  /** The opening of each explanation; an invalid certificate name also names the host. */
  function ReasonText(r: Reason): string {
    match r
    case NoResolve => "This usually means that the hostname does not resolve to an IP."
    case UnknownCa => "This means that we cannot validate the certificate in use by the OpenShift API server"
    case UnneededCa => "This means that for client connections to the OpenShift API server, you (or your kubeconfig) specified both a validating certificate authority and that the client should bypass connection security validation."
    case InvalidCertName(host) => "This means that the certificate in use by the OpenShift API server (master) does not match the hostname by which you are addressing it: " + host
    case ConnRefused => "This means that when we tried to connect to the OpenShift API server (master), we reached the host, but nothing accepted the port connection."
    case ConnTimeout => "This means that when we tried to connect to the OpenShift API server (master), we could not reach the host at all."
    case MalformedHttp => "This means that when we tried to connect to the OpenShift API server (master) with a plain HTTP connection, the server did not speak HTTP back to us."
    case MalformedTls => "This means that when we tried to connect to the OpenShift API server (master) with a secure HTTPS connection, the server did not speak HTTPS back to us."
    case Unexplained => "Diagnostics does not have an explanation for what this means. Please report this error so one can be added."
  }

  /** The error the project-list request ended with: its Go type and its message. */
  datatype ApiError = ApiError(typeName: string, message: string)

  const ContactedText := "Successfully requested project list from OpenShift master"

  function FailureText(err: ApiError, reason: Reason): string {
    "(" + err.typeName + ") " + err.message + "\n" + ReasonText(reason)
  }

  /**
   * The Run of ContactMaster, given how the request ended: exactly one
   * emission, an Error explaining the failure by its classified reason, or
   * the success Info.
   */
  function ContactOutput(re: RegexOracle, err: Option<ApiError>): (out: seq<Emission>)
    ensures |out| == 1
    ensures out[0].level == Error <==> err.Some?
    ensures err.None? ==> out[0] == Emission(Info, ContactedText)
    ensures err.Some? ==> out[0].text == FailureText(err.value, Classify(re, err.value.message))
  {
    match err
    case None => [Emission(Info, ContactedText)]
    case Some(e) => [Emission(Error, FailureText(e, Classify(re, e.message)))]
  }

  const NilDereference := "runtime error: invalid memory address or nil pointer dereference"

  /**
   * The registry entries of this file. `order` is the order Go ranges over a
   * configuration's contexts in, visiting each context once; `request` is how
   * the project-list request against the master ends.
   */
  function Diagnostics(re: RegexOracle, order: Kubeconfig -> seq<string>, request: Environment -> Option<ApiError>)
    : (d: map<string, Diagnostic>)
    requires forall kc: Kubeconfig :: Enumerates(order(kc), kc.contexts.Keys)
    ensures d.Keys == {"KubeconfigContexts", "ContactMaster"}
    ensures d["KubeconfigContexts"].condition.Some? && d["ContactMaster"].condition.None?
  {
    map[
      "KubeconfigContexts" := Diagnostic(
        "Test that kubeconfig contexts and current context are ok",
        Some((env: Environment) => Returned(ContextsCondition(env), [])),
        (env: Environment) =>
          if env.kubeconfig.None? then Panicked([Emission(Info, TestingText)], NilDereference)
          else Returned((), ContextsOutput(env.kubeconfig.value, order(env.kubeconfig.value)))),
      "ContactMaster" := Diagnostic(
        "Test contacting the OpenShift master",
        None,
        (env: Environment) => Returned((), ContactOutput(re, request(env))))]
  }
}
