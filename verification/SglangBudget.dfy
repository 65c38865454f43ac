/** The KV capacity that benchmarks/bench_online_sglang.py asks for, and the check that it makes of the
    running server. */
module SglangBudget {
  import opened Paging

  /** Whole pages of whole tokens that fit the byte budget, in tokens. */
  function MaxTotalTokens(bytes: nat, bytesPerToken: nat, pageSize: nat): nat
    requires bytesPerToken > 0 && pageSize > 0
  {
    bytes / bytesPerToken / pageSize * pageSize
  }

  /** The later check: the budget is not exceeded, and less than a page of it is unused. */
  predicate BudgetRespected(bytes: nat, bytesPerToken: nat, pageSize: nat, tokens: nat) {
    0 <= bytes - tokens * bytesPerToken < pageSize * bytesPerToken
  }

  lemma Pages(bytes: nat, bytesPerToken: nat, pageSize: nat, pages: nat)
    requires bytesPerToken > 0 && pageSize > 0 && pages == bytes / bytesPerToken / pageSize
    ensures Start(Start(pages, pageSize), bytesPerToken) <= bytes < Start(Start(pages, pageSize), bytesPerToken)
            + Start(pageSize, bytesPerToken)
  {
    var tokens := bytes / bytesPerToken;
    PageOfRow(bytes, bytesPerToken);
    PageOfRow(tokens, pageSize);
    StartMonotone(Start(pages, pageSize), tokens, bytesPerToken);
    StartMonotone(tokens + 1, Start(pages, pageSize) + pageSize, bytesPerToken);
    StartAdds(Start(pages, pageSize), pageSize, bytesPerToken);
  }

  /** Rounding down twice always passes the check, for every budget; the request itself is refused
      exactly if the budget is smaller than one page. */
  lemma RoundingPassesCheck(bytes: nat, bytesPerToken: nat, pageSize: nat)
    requires bytesPerToken > 0 && pageSize > 0
    ensures BudgetRespected(bytes, bytesPerToken, pageSize, MaxTotalTokens(bytes, bytesPerToken, pageSize))
    ensures MaxTotalTokens(bytes, bytesPerToken, pageSize) > 0 <==> bytes >= pageSize * bytesPerToken
  {
    var pages := bytes / bytesPerToken / pageSize;
    Pages(bytes, bytesPerToken, pageSize, pages);
    StartIsProduct(pages, pageSize);
    StartIsProduct(Start(pages, pageSize), bytesPerToken);
    StartIsProduct(pageSize, bytesPerToken);
    if pages > 0 {
      StartMonotone(1, pages, pageSize);
      StartMonotone(pageSize, Start(pages, pageSize), bytesPerToken);
    }
  }
}
