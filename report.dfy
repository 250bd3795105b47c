/**
 * Pushing a text to the webhook (postFeishuText, src/main.cpp:200-242) and
 * the /push reply (handlePushSys, src/main.cpp:244-257). The report text,
 * the JSON payload and the HTTPS exchange are not modelled: the exchange is
 * described by whether Wi-Fi is up, whether https.begin accepted the URL,
 * and the status code and body that came back.
 */
module Report {

  import opened Symbols
  import opened Config

  /** The codes postFeishuText reports for its own failures. */
  const CODE_NO_WEBHOOK: int := -3
  const CODE_NO_WIFI: int := -1
  const CODE_BEGIN_FAILED: int := -2

  /** The network as one push meets it; code is what https.POST returned (negative on a transport error). */
  datatype PostEnv = PostEnv(wifiConnected: bool, beginOk: bool, code: int, body: string)

  /** The return value of postFeishuText with its *outCode and *outResp. */
  datatype PostResult = PostResult(ok: bool, code: int, resp: string)

  /** A status code postFeishuText accepts: anything from 1 to 299, informational codes included. */
  function Accepted(code: int): (ok: bool)
    ensures ok ==> code != CODE_NO_WEBHOOK && code != CODE_NO_WIFI && code != CODE_BEGIN_FAILED
    ensures 100 <= code < 300 ==> ok
    ensures code >= 300 || code <= 0 ==> !ok
  {
    0 < code < 300
  }

  /**
   * postFeishuText: no webhook (after trimming) gives -3, no Wi-Fi -1, a
   * refused begin -2; otherwise the server's code and body are passed on
   * and the push succeeded when the code is accepted. The checks are made
   * in that order, so the webhook test wins over the others.
   */
  function PostText(webhook: string, env: PostEnv): (r: PostResult)
    ensures r.ok <==> Trim(webhook) != [] && env.wifiConnected && env.beginOk && Accepted(env.code)
    ensures Trim(webhook) == [] ==> r == PostResult(false, CODE_NO_WEBHOOK, "webhook not set")
    ensures Trim(webhook) != [] && !env.wifiConnected ==> r == PostResult(false, CODE_NO_WIFI, "wifi not connected")
    ensures Trim(webhook) != [] && env.wifiConnected && !env.beginOk ==>
      r == PostResult(false, CODE_BEGIN_FAILED, "https.begin failed")
    ensures Trim(webhook) != [] && env.wifiConnected && env.beginOk ==> r.code == env.code && r.resp == env.body
  {
    var hook := Trim(webhook);
    if |hook| == 0 then PostResult(false, CODE_NO_WEBHOOK, "webhook not set")
    else if !env.wifiConnected then PostResult(false, CODE_NO_WIFI, "wifi not connected")
    else if !env.beginOk then PostResult(false, CODE_BEGIN_FAILED, "https.begin failed")
    else PostResult(Accepted(env.code), env.code, env.body)
  }

  /** A 1xx answer counts as a successful push. */
  lemma InformationalCountsAsSuccess(webhook: string, body: string)
    requires Trim(webhook) != []
    ensures PostText(webhook, PostEnv(true, true, 100, body)).ok
  {
  }

  /** With no webhook nothing about the network matters. */
  lemma BlankWebhookIgnoresNetwork(webhook: string, e1: PostEnv, e2: PostEnv)
    requires Trim(webhook) == []
    ensures PostText(webhook, e1) == PostText(webhook, e2)
  {
  }

  /** A failed push never reports an accepted code from the server. */
  lemma FailedPushCode(webhook: string, env: PostEnv)
    ensures var r := PostText(webhook, env); !r.ok ==> !Accepted(r.code)
  {
  }

  /** Clearing the webhook through /cfg turns every later push into the -3 outcome. */
  lemma ClearedWebhookDisablesPush(c: AppConfig, api: string, wh: string, env: PostEnv)
    requires forall i :: 0 <= i < |wh| ==> IsSpace(wh[i])
    ensures PostText(CfgSet(c, api, wh).webhook, env).code == CODE_NO_WEBHOOK
  {
    BlankWebhookClears(c, api, wh);
    assert Trim([]) == [];
  }

  /** The HTTP status of the /push reply: 200 when the push succeeded, 500 otherwise. */
  function PushStatus(r: PostResult): (status: int)
    ensures status == 200 <==> r.ok
    ensures status == 200 || status == 500
  {
    if r.ok then 200 else 500
  }
}
