/**
 * `ErrorHandler`: the HTTP error each handler raises for an error message.
 * Every handler always raises; the model returns the raised error instead.
 */
module ErrorHandler {
  import opened Text

  /** The raised `HTTPException`: its status code and detail. */
  datatype HttpError = HttpError(status: int, detail: string)

  const RateLimited := HttpError(429, "GitHub API速率限制已达到，请稍后再试")
  const NotFound := HttpError(404, "请求的资源不存在")
  const BadCredentials := HttpError(401, "GitHub认证失败，请检查Token")
  const GithubPrefix := "GitHub API错误: "
  const CachePrefix := "缓存操作失败: "
  const ValidationPrefix := "数据验证失败: "

  /**
   * `handle_github_error(error)`, with `message` the text of `str(error)`:
   * the first phrase found in its lower-cased text decides, and a message
   * with none of them gives 500 with the message in the detail.
   */
  function HandleGithubError(message: string): (e: HttpError)
    ensures Contains(Lower(message), "rate limit exceeded") ==> e == RateLimited
    ensures !Contains(Lower(message), "rate limit exceeded") && Contains(Lower(message), "not found") ==> e == NotFound
    ensures (!Contains(Lower(message), "rate limit exceeded") && !Contains(Lower(message), "not found") &&
             Contains(Lower(message), "bad credentials")) ==> e == BadCredentials
    ensures e.status == 500 <==>
            !Contains(Lower(message), "rate limit exceeded") && !Contains(Lower(message), "not found") &&
            !Contains(Lower(message), "bad credentials")
    ensures e.status == 500 ==> e.detail == GithubPrefix + message
  {
    var lowered := Lower(message);
    if Contains(lowered, "rate limit exceeded") then RateLimited
    else if Contains(lowered, "not found") then NotFound
    else if Contains(lowered, "bad credentials") then BadCredentials
    else HttpError(500, GithubPrefix + message)
  }

  /** `handle_cache_error(error)`: always 500. */
  function HandleCacheError(message: string): (e: HttpError)
    ensures e.status == 500 && e.detail == CachePrefix + message
  {
    HttpError(500, CachePrefix + message)
  }

  /** `handle_validation_error(error)`: always 400. */
  function HandleValidationError(message: string): (e: HttpError)
    ensures e.status == 400 && e.detail == ValidationPrefix + message
  {
    HttpError(400, ValidationPrefix + message)
  }

  /** The status never depends on letter case: a message and its lower-cased text get the same one. */
  lemma StatusIgnoresCase(message: string)
    ensures HandleGithubError(Lower(message)).status == HandleGithubError(message).status
  {
    LowerIdempotent(message);
  }

  /** Two messages that agree up to letter case get the same status. */
  lemma SameLowerSameStatus(m1: string, m2: string)
    requires Lower(m1) == Lower(m2)
    ensures HandleGithubError(m1).status == HandleGithubError(m2).status
  {
  }

  /** The status is one of the four the handler knows. */
  lemma StatusesKnown(message: string)
    ensures HandleGithubError(message).status in {429, 404, 401, 500}
  {
  }

  /** A rate-limit message wins over every later check, whatever else it says. */
  lemma RateLimitFirst(before: string, after: string)
    ensures HandleGithubError(before + "rate limit exceeded" + after) == RateLimited
  {
    var m := before + "rate limit exceeded" + after;
    var phrase := "rate limit exceeded";
    assert Lower(phrase) == phrase;
    assert Lower(m)[|before|..|before| + |phrase|] == Lower(phrase) by {
      assert m[|before|..|before| + |phrase|] == phrase;
    }
    assert OccursAt(Lower(m), phrase, |before|);
  }

  /** GitHub's `Not Found`, capitalised, is recognised. */
  lemma CapitalisedNotFound()
    ensures HandleGithubError("404 Not Found").status == 404
  {
    assert Lower("404 Not Found") == "404 not found";
    assert OccursAt(Lower("404 Not Found"), "not found", 4);
  }

  /** A message with none of the phrases keeps its own text in the detail, behind the fixed prefix. */
  lemma OtherErrorKeepsMessage(message: string)
    requires HandleGithubError(message).status == 500
    ensures var d := HandleGithubError(message).detail;
      d[..|GithubPrefix|] == GithubPrefix && d[|GithubPrefix|..] == message
  {
  }
}
