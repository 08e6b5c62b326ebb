/** Repository-string dispatch of the legacy repository management
    (PacksRepository.parseRepository). The global plugin list is passed in as a sequence;
    a plugin's parser answers `None` where the Java plugin returns null. */
module LegacyRepositories {
  import opened Wrappers

  /** Asks each plugin in list order and returns the first answer that is not `None`. */
  function ParseRepository<F, R>(plugins: seq<(F, string) -> Option<R>>, root: F, str: string): (r: Option<R>)
    ensures r.None? <==> forall k :: 0 <= k < |plugins| ==> plugins[k](root, str).None?
    ensures r.Some? ==> exists k :: 0 <= k < |plugins| && plugins[k](root, str) == r &&
                                    forall j :: 0 <= j < k ==> plugins[j](root, str).None?
  {
    if plugins == [] then None
    else
      var answer := plugins[0](root, str);
      if answer.Some? then answer
      else
        var rest := ParseRepository(plugins[1..], root, str);
        assert forall k :: 1 <= k < |plugins| ==> plugins[k] == plugins[1..][k - 1];
        rest
  }

  /** Once plugin `k` answers, the plugins after it are never consulted: replacing them by
      anything leaves the result unchanged. */
  lemma {:induction false} LaterPluginsNotConsulted<F, R>(plugins: seq<(F, string) -> Option<R>>, k: nat,
                                                          tail: seq<(F, string) -> Option<R>>, root: F, str: string)
    requires k < |plugins|
    requires plugins[k](root, str).Some?
    requires forall j :: 0 <= j < k ==> plugins[j](root, str).None?
    ensures ParseRepository(plugins[..k + 1] + tail, root, str) == plugins[k](root, str)
  {
    var front := plugins[..k + 1] + tail;
    assert front[0] == plugins[0];
    if k > 0 {
      var shorter := plugins[1..];
      assert plugins[0](root, str).None?;
      assert forall j :: 0 <= j < k - 1 ==> shorter[j] == plugins[j + 1];
      LaterPluginsNotConsulted(shorter, k - 1, tail, root, str);
      assert front[1..] == shorter[..k] + tail;
    }
  }

  /** The first plugin that answers decides the result. */
  lemma FirstAnswerWins<F, R>(plugins: seq<(F, string) -> Option<R>>, k: nat, root: F, str: string)
    requires k < |plugins|
    requires plugins[k](root, str).Some?
    requires forall j :: 0 <= j < k ==> plugins[j](root, str).None?
    ensures ParseRepository(plugins, root, str) == plugins[k](root, str)
  {
    LaterPluginsNotConsulted(plugins, k, plugins[k + 1..], root, str);
    assert plugins[..k + 1] + plugins[k + 1..] == plugins;
  }
}
