/** opinion-hub-frontend/app/providers.tsx: the language context. Two fixed
    tables map message keys to English and Chinese text; `t` looks a key up in
    the current language's table and falls back to the key itself. */
module I18n {
  import opened Base

  datatype Language = En | Zh

  /** A table as the object literal writes it: its entries in order. */
  type Entries = seq<(string, string)>

  /** The English table (lines 16-90) and the Chinese table (lines
      91-165), section by section as the source groups them (the long
      survey section in two parts). */
  const EnNavigation: Entries := [
    ("nav.home", "Research Hub"),
    ("nav.create", "Launch Survey"),
    ("nav.admin", "Analytics"),
    ("nav.connect", "Connect Wallet")
  ]

  const EnCommon: Entries := [
    ("common.loading", "Loading..."),
    ("common.close", "Close"),
    ("common.cancel", "Cancel"),
    ("common.submit", "Submit"),
    ("common.save", "Save"),
    ("common.edit", "Edit"),
    ("common.delete", "Delete"),
    ("common.confirm", "Confirm")
  ]

  const EnSurvey: Entries := [
    ("survey.title", "OpinionHub"),
    ("survey.subtitle", "Advanced Public Opinion Research Platform"),
    ("survey.active", "Active"),
    ("survey.closed", "Closed"),
    ("survey.upcoming", "Upcoming"),
    ("survey.participate", "Participate"),
    ("survey.insights", "View Insights"),
    ("survey.responses", "responses"),
    ("survey.by", "By"),
    ("survey.launches_at", "Launches at")
  ]

  const EnSurveyMore: Entries := [
    ("survey.time_left", "Time left"),
    ("survey.closed_at", "Closed at"),
    ("survey.open_access", "Open Access"),
    ("survey.restricted", "Restricted"),
    ("survey.create", "Launch New Survey"),
    ("survey.total_responses", "Total Responses"),
    ("survey.created_by", "Researcher"),
    ("survey.select_response", "Select your response"),
    ("survey.submit_response", "Submit Response"),
    ("survey.response_submitted", "Response submitted successfully!")
  ]

  const EnForm: Entries := [
    ("form.topic", "Research Topic"),
    ("form.description", "Description"),
    ("form.choices", "Response Options"),
    ("form.launch_time", "Launch Time"),
    ("form.close_time", "Close Time"),
    ("form.access_type", "Access Type"),
    ("form.open_access", "Open Access"),
    ("form.restricted_access", "Restricted Access"),
    ("form.duration", "Duration (hours)")
  ]

  const EnMessages: Entries := [
    ("msg.already_participated", "You have already participated in this survey"),
    ("msg.not_authorized", "You are not authorized to participate"),
    ("msg.survey_created", "Survey launched successfully!"),
    ("msg.response_submitted", "Response submitted successfully!"),
    ("msg.survey_closed", "Survey closed successfully!"),
    ("msg.insights_published", "Insights published successfully!"),
    ("msg.select_choice", "Please select a response option"),
    ("msg.privacy_protected", "Your response will be encrypted and anonymous")
  ]

  const EnInsights: Entries := [
    ("insights.title", "Survey Insights"),
    ("insights.total_responses", "Total Responses"),
    ("insights.winning_choice", "Most Popular Choice"),
    ("insights.detailed_results", "Detailed Analysis"),
    ("insights.decrypt", "Decrypt Results"),
    ("insights.publish", "Publish Insights"),
    ("insights.percentage", "of responses")
  ]

  const EnErrors: Entries := [
    ("error.wallet_not_connected", "Please connect your wallet"),
    ("error.survey_not_found", "Survey not found"),
    ("error.unauthorized", "Unauthorized access"),
    ("error.transaction_failed", "Transaction failed")
  ]

  const ZhNavigation: Entries := [
    ("nav.home", "调研中心"),
    ("nav.create", "发起调研"),
    ("nav.admin", "数据分析"),
    ("nav.connect", "连接钱包")
  ]

  const ZhCommon: Entries := [
    ("common.loading", "加载中..."),
    ("common.close", "关闭"),
    ("common.cancel", "取消"),
    ("common.submit", "提交"),
    ("common.save", "保存"),
    ("common.edit", "编辑"),
    ("common.delete", "删除"),
    ("common.confirm", "确认")
  ]

  const ZhSurvey: Entries := [
    ("survey.title", "民意调研平台"),
    ("survey.subtitle", "先进的公众意见研究平台"),
    ("survey.active", "进行中"),
    ("survey.closed", "已结束"),
    ("survey.upcoming", "即将开始"),
    ("survey.participate", "参与调研"),
    ("survey.insights", "查看洞察"),
    ("survey.responses", "个回复"),
    ("survey.by", "研究员"),
    ("survey.launches_at", "开始时间")
  ]

  const ZhSurveyMore: Entries := [
    ("survey.time_left", "剩余时间"),
    ("survey.closed_at", "结束时间"),
    ("survey.open_access", "公开调研"),
    ("survey.restricted", "限制访问"),
    ("survey.create", "发起新调研"),
    ("survey.total_responses", "总回复数"),
    ("survey.created_by", "研究员"),
    ("survey.select_response", "选择您的回复"),
    ("survey.submit_response", "提交回复"),
    ("survey.response_submitted", "回复提交成功！")
  ]

  const ZhForm: Entries := [
    ("form.topic", "调研主题"),
    ("form.description", "描述"),
    ("form.choices", "选项"),
    ("form.launch_time", "开始时间"),
    ("form.close_time", "结束时间"),
    ("form.access_type", "访问类型"),
    ("form.open_access", "公开访问"),
    ("form.restricted_access", "限制访问"),
    ("form.duration", "持续时间（小时）")
  ]

  const ZhMessages: Entries := [
    ("msg.already_participated", "您已经参与过此调研"),
    ("msg.not_authorized", "您无权参与此调研"),
    ("msg.survey_created", "调研发起成功！"),
    ("msg.response_submitted", "回复提交成功！"),
    ("msg.survey_closed", "调研关闭成功！"),
    ("msg.insights_published", "洞察发布成功！"),
    ("msg.select_choice", "请选择一个回复选项"),
    ("msg.privacy_protected", "您的回复将被加密并保持匿名")
  ]

  const ZhInsights: Entries := [
    ("insights.title", "调研洞察"),
    ("insights.total_responses", "总回复数"),
    ("insights.winning_choice", "最受欢迎选项"),
    ("insights.detailed_results", "详细分析"),
    ("insights.decrypt", "解密结果"),
    ("insights.publish", "发布洞察"),
    ("insights.percentage", "的回复")
  ]

  const ZhErrors: Entries := [
    ("error.wallet_not_connected", "请连接您的钱包"),
    ("error.survey_not_found", "未找到调研"),
    ("error.unauthorized", "未授权访问"),
    ("error.transaction_failed", "交易失败")
  ]

  const EnEntries: Entries := EnNavigation + EnCommon + EnSurvey + EnSurveyMore + EnForm + EnMessages + EnInsights + EnErrors
  const ZhEntries: Entries := ZhNavigation + ZhCommon + ZhSurvey + ZhSurveyMore + ZhForm + ZhMessages + ZhInsights + ZhErrors

  function Table(language: Language): Entries {
    match language
    case En => EnEntries
    case Zh => ZhEntries
  }

  function KeysOf(entries: Entries): (ks: seq<string>)
    ensures |ks| == |entries| && forall i :: 0 <= i < |ks| ==> ks[i] == entries[i].0
  {
    seq(|entries|, i requires 0 <= i < |entries| => entries[i].0)
  }

  /** `table[key]`: as in an object literal, a key written twice keeps its
      last value; a key never written is `undefined`. */
  function Lookup(entries: Entries, key: string): (r: Option<string>)
    ensures r.Some? <==> key in KeysOf(entries)
    ensures r.Some? ==> r.value == entries[LastIndex(entries, key)].1
  {
    if entries == [] then None
    else if entries[|entries| - 1].0 == key then Some(entries[|entries| - 1].1)
    else
      assert KeysOf(entries) == KeysOf(entries[..|entries| - 1]) + [entries[|entries| - 1].0];
      Lookup(entries[..|entries| - 1], key)
  }

  /** The position of a key's last entry. */
  function LastIndex(entries: Entries, key: string): (k: nat)
    requires key in KeysOf(entries)
    ensures k < |entries| && entries[k].0 == key
    ensures forall j :: k < j < |entries| ==> entries[j].0 != key
  {
    if entries[|entries| - 1].0 == key then |entries| - 1
    else
      assert KeysOf(entries) == KeysOf(entries[..|entries| - 1]) + [entries[|entries| - 1].0];
      LastIndex(entries[..|entries| - 1], key)
  }

  /** `translations[language][key] || key` (lines 171-173): the entry when
      there is a non-empty one, the key otherwise. */
  function Translate(language: Language, key: string): (r: string)
    ensures Lookup(Table(language), key).Some? && Lookup(Table(language), key).value != "" ==> r == Lookup(Table(language), key).value
    ensures Lookup(Table(language), key).None? ==> r == key
  {
    var entry := Lookup(Table(language), key);
    if entry.Some? && entry.value != "" then entry.value else key
  }

  /** Two tables written with the same keys in the same order, neither
      with an empty entry. */
  predicate Agree(a: Entries, b: Entries) {
    && KeysOf(a) == KeysOf(b)
    && (forall i :: 0 <= i < |a| ==> a[i].1 != "")
    && (forall i :: 0 <= i < |b| ==> b[i].1 != "")
  }

  /** Agreement survives appending a section to both tables. */
  lemma AgreeAppend(a: Entries, b: Entries, c: Entries, d: Entries)
    requires Agree(a, b) && Agree(c, d)
    ensures Agree(a + c, b + d)
  {
    assert KeysOf(a + c) == KeysOf(a) + KeysOf(c);
    assert KeysOf(b + d) == KeysOf(b) + KeysOf(d);
  }

  lemma NavigationAgrees()
    ensures Agree(EnNavigation, ZhNavigation)
  {
    assert EnNavigation[0].0 == ZhNavigation[0].0 && EnNavigation[0].1[0] == 'R' && ZhNavigation[0].1[0] == '调';
    assert EnNavigation[1].0 == ZhNavigation[1].0 && EnNavigation[1].1[0] == 'L' && ZhNavigation[1].1[0] == '发';
    assert EnNavigation[2].0 == ZhNavigation[2].0 && EnNavigation[2].1[0] == 'A' && ZhNavigation[2].1[0] == '数';
    assert EnNavigation[3].0 == ZhNavigation[3].0 && EnNavigation[3].1[0] == 'C' && ZhNavigation[3].1[0] == '连';
  }

  lemma CommonAgrees()
    ensures Agree(EnCommon, ZhCommon)
  {
    assert EnCommon[0].0 == ZhCommon[0].0 && EnCommon[0].1[0] == 'L' && ZhCommon[0].1[0] == '加';
    assert EnCommon[1].0 == ZhCommon[1].0 && EnCommon[1].1[0] == 'C' && ZhCommon[1].1[0] == '关';
    assert EnCommon[2].0 == ZhCommon[2].0 && EnCommon[2].1[0] == 'C' && ZhCommon[2].1[0] == '取';
    assert EnCommon[3].0 == ZhCommon[3].0 && EnCommon[3].1[0] == 'S' && ZhCommon[3].1[0] == '提';
    assert EnCommon[4].0 == ZhCommon[4].0 && EnCommon[4].1[0] == 'S' && ZhCommon[4].1[0] == '保';
    assert EnCommon[5].0 == ZhCommon[5].0 && EnCommon[5].1[0] == 'E' && ZhCommon[5].1[0] == '编';
    assert EnCommon[6].0 == ZhCommon[6].0 && EnCommon[6].1[0] == 'D' && ZhCommon[6].1[0] == '删';
    assert EnCommon[7].0 == ZhCommon[7].0 && EnCommon[7].1[0] == 'C' && ZhCommon[7].1[0] == '确';
  }

  lemma SurveyAgrees()
    ensures Agree(EnSurvey, ZhSurvey)
  {
    assert EnSurvey[0].0 == ZhSurvey[0].0 && EnSurvey[0].1[0] == 'O' && ZhSurvey[0].1[0] == '民';
    assert EnSurvey[1].0 == ZhSurvey[1].0 && EnSurvey[1].1[0] == 'A' && ZhSurvey[1].1[0] == '先';
    assert EnSurvey[2].0 == ZhSurvey[2].0 && EnSurvey[2].1[0] == 'A' && ZhSurvey[2].1[0] == '进';
    assert EnSurvey[3].0 == ZhSurvey[3].0 && EnSurvey[3].1[0] == 'C' && ZhSurvey[3].1[0] == '已';
    assert EnSurvey[4].0 == ZhSurvey[4].0 && EnSurvey[4].1[0] == 'U' && ZhSurvey[4].1[0] == '即';
    assert EnSurvey[5].0 == ZhSurvey[5].0 && EnSurvey[5].1[0] == 'P' && ZhSurvey[5].1[0] == '参';
    assert EnSurvey[6].0 == ZhSurvey[6].0 && EnSurvey[6].1[0] == 'V' && ZhSurvey[6].1[0] == '查';
    assert EnSurvey[7].0 == ZhSurvey[7].0 && EnSurvey[7].1[0] == 'r' && ZhSurvey[7].1[0] == '个';
    assert EnSurvey[8].0 == ZhSurvey[8].0 && EnSurvey[8].1[0] == 'B' && ZhSurvey[8].1[0] == '研';
    assert EnSurvey[9].0 == ZhSurvey[9].0 && EnSurvey[9].1[0] == 'L' && ZhSurvey[9].1[0] == '开';
  }

  lemma SurveyMoreAgrees()
    ensures Agree(EnSurveyMore, ZhSurveyMore)
  {
    assert EnSurveyMore[0].0 == ZhSurveyMore[0].0 && EnSurveyMore[0].1[0] == 'T' && ZhSurveyMore[0].1[0] == '剩';
    assert EnSurveyMore[1].0 == ZhSurveyMore[1].0 && EnSurveyMore[1].1[0] == 'C' && ZhSurveyMore[1].1[0] == '结';
    assert EnSurveyMore[2].0 == ZhSurveyMore[2].0 && EnSurveyMore[2].1[0] == 'O' && ZhSurveyMore[2].1[0] == '公';
    assert EnSurveyMore[3].0 == ZhSurveyMore[3].0 && EnSurveyMore[3].1[0] == 'R' && ZhSurveyMore[3].1[0] == '限';
    assert EnSurveyMore[4].0 == ZhSurveyMore[4].0 && EnSurveyMore[4].1[0] == 'L' && ZhSurveyMore[4].1[0] == '发';
    assert EnSurveyMore[5].0 == ZhSurveyMore[5].0 && EnSurveyMore[5].1[0] == 'T' && ZhSurveyMore[5].1[0] == '总';
    assert EnSurveyMore[6].0 == ZhSurveyMore[6].0 && EnSurveyMore[6].1[0] == 'R' && ZhSurveyMore[6].1[0] == '研';
    assert EnSurveyMore[7].0 == ZhSurveyMore[7].0 && EnSurveyMore[7].1[0] == 'S' && ZhSurveyMore[7].1[0] == '选';
    assert EnSurveyMore[8].0 == ZhSurveyMore[8].0 && EnSurveyMore[8].1[0] == 'S' && ZhSurveyMore[8].1[0] == '提';
    assert EnSurveyMore[9].0 == ZhSurveyMore[9].0 && EnSurveyMore[9].1[0] == 'R' && ZhSurveyMore[9].1[0] == '回';
  }

  lemma FormAgrees()
    ensures Agree(EnForm, ZhForm)
  {
    assert EnForm[0].0 == ZhForm[0].0 && EnForm[0].1[0] == 'R' && ZhForm[0].1[0] == '调';
    assert EnForm[1].0 == ZhForm[1].0 && EnForm[1].1[0] == 'D' && ZhForm[1].1[0] == '描';
    assert EnForm[2].0 == ZhForm[2].0 && EnForm[2].1[0] == 'R' && ZhForm[2].1[0] == '选';
    assert EnForm[3].0 == ZhForm[3].0 && EnForm[3].1[0] == 'L' && ZhForm[3].1[0] == '开';
    assert EnForm[4].0 == ZhForm[4].0 && EnForm[4].1[0] == 'C' && ZhForm[4].1[0] == '结';
    assert EnForm[5].0 == ZhForm[5].0 && EnForm[5].1[0] == 'A' && ZhForm[5].1[0] == '访';
    assert EnForm[6].0 == ZhForm[6].0 && EnForm[6].1[0] == 'O' && ZhForm[6].1[0] == '公';
    assert EnForm[7].0 == ZhForm[7].0 && EnForm[7].1[0] == 'R' && ZhForm[7].1[0] == '限';
    assert EnForm[8].0 == ZhForm[8].0 && EnForm[8].1[0] == 'D' && ZhForm[8].1[0] == '持';
  }

  lemma MessagesAgrees()
    ensures Agree(EnMessages, ZhMessages)
  {
    assert EnMessages[0].0 == ZhMessages[0].0 && EnMessages[0].1[0] == 'Y' && ZhMessages[0].1[0] == '您';
    assert EnMessages[1].0 == ZhMessages[1].0 && EnMessages[1].1[0] == 'Y' && ZhMessages[1].1[0] == '您';
    assert EnMessages[2].0 == ZhMessages[2].0 && EnMessages[2].1[0] == 'S' && ZhMessages[2].1[0] == '调';
    assert EnMessages[3].0 == ZhMessages[3].0 && EnMessages[3].1[0] == 'R' && ZhMessages[3].1[0] == '回';
    assert EnMessages[4].0 == ZhMessages[4].0 && EnMessages[4].1[0] == 'S' && ZhMessages[4].1[0] == '调';
    assert EnMessages[5].0 == ZhMessages[5].0 && EnMessages[5].1[0] == 'I' && ZhMessages[5].1[0] == '洞';
    assert EnMessages[6].0 == ZhMessages[6].0 && EnMessages[6].1[0] == 'P' && ZhMessages[6].1[0] == '请';
    assert EnMessages[7].0 == ZhMessages[7].0 && EnMessages[7].1[0] == 'Y' && ZhMessages[7].1[0] == '您';
  }

  lemma InsightsAgrees()
    ensures Agree(EnInsights, ZhInsights)
  {
    assert EnInsights[0].0 == ZhInsights[0].0 && EnInsights[0].1[0] == 'S' && ZhInsights[0].1[0] == '调';
    assert EnInsights[1].0 == ZhInsights[1].0 && EnInsights[1].1[0] == 'T' && ZhInsights[1].1[0] == '总';
    assert EnInsights[2].0 == ZhInsights[2].0 && EnInsights[2].1[0] == 'M' && ZhInsights[2].1[0] == '最';
    assert EnInsights[3].0 == ZhInsights[3].0 && EnInsights[3].1[0] == 'D' && ZhInsights[3].1[0] == '详';
    assert EnInsights[4].0 == ZhInsights[4].0 && EnInsights[4].1[0] == 'D' && ZhInsights[4].1[0] == '解';
    assert EnInsights[5].0 == ZhInsights[5].0 && EnInsights[5].1[0] == 'P' && ZhInsights[5].1[0] == '发';
    assert EnInsights[6].0 == ZhInsights[6].0 && EnInsights[6].1[0] == 'o' && ZhInsights[6].1[0] == '的';
  }

  lemma ErrorsAgrees()
    ensures Agree(EnErrors, ZhErrors)
  {
    assert EnErrors[0].0 == ZhErrors[0].0 && EnErrors[0].1[0] == 'P' && ZhErrors[0].1[0] == '请';
    assert EnErrors[1].0 == ZhErrors[1].0 && EnErrors[1].1[0] == 'S' && ZhErrors[1].1[0] == '未';
    assert EnErrors[2].0 == ZhErrors[2].0 && EnErrors[2].1[0] == 'U' && ZhErrors[2].1[0] == '未';
    assert EnErrors[3].0 == ZhErrors[3].0 && EnErrors[3].1[0] == 'T' && ZhErrors[3].1[0] == '交';
  }

  /** The two tables are written with the same keys in the same order, and
      no entry is empty. */
  lemma TablesAgree()
    ensures Agree(EnEntries, ZhEntries)
  {
    NavigationAgrees();
    CommonAgrees();
    SurveyAgrees();
    SurveyMoreAgrees();
    FormAgrees();
    MessagesAgrees();
    InsightsAgrees();
    ErrorsAgrees();
    AgreeAppend(EnNavigation, ZhNavigation, EnCommon, ZhCommon);
    AgreeAppend(EnNavigation + EnCommon, ZhNavigation + ZhCommon, EnSurvey, ZhSurvey);
    AgreeAppend(EnNavigation + EnCommon + EnSurvey, ZhNavigation + ZhCommon + ZhSurvey, EnSurveyMore, ZhSurveyMore);
    AgreeAppend(EnNavigation + EnCommon + EnSurvey + EnSurveyMore, ZhNavigation + ZhCommon + ZhSurvey + ZhSurveyMore, EnForm, ZhForm);
    AgreeAppend(EnNavigation + EnCommon + EnSurvey + EnSurveyMore + EnForm, ZhNavigation + ZhCommon + ZhSurvey + ZhSurveyMore + ZhForm, EnMessages, ZhMessages);
    AgreeAppend(EnNavigation + EnCommon + EnSurvey + EnSurveyMore + EnForm + EnMessages, ZhNavigation + ZhCommon + ZhSurvey + ZhSurveyMore + ZhForm + ZhMessages, EnInsights, ZhInsights);
    AgreeAppend(EnNavigation + EnCommon + EnSurvey + EnSurveyMore + EnForm + EnMessages + EnInsights, ZhNavigation + ZhCommon + ZhSurvey + ZhSurveyMore + ZhForm + ZhMessages + ZhInsights, EnErrors, ZhErrors);
  }

  /** Switching language never turns a translated key into its fallback: a
      key is shown as itself exactly when neither table has it, and
      otherwise each language shows its own entry. */
  lemma SwitchingKeepsTranslations(key: string)
    ensures Lookup(EnEntries, key).Some? <==> Lookup(ZhEntries, key).Some?
    ensures Lookup(EnEntries, key).Some? ==>
      Translate(En, key) == Lookup(EnEntries, key).value && Translate(Zh, key) == Lookup(ZhEntries, key).value
    ensures Lookup(EnEntries, key).None? ==> Translate(En, key) == key && Translate(Zh, key) == key
  {
    TablesAgree();
  }

  class LanguageProvider {
    var language: Language

    /** The language starts as English (line 169). */
    constructor ()
      ensures language == En
    {
      language := En;
    }

    /** `t(key)` in the current language. */
    function T(key: string): (r: string)
      reads this
      ensures Lookup(Table(language), key).Some? ==> r == Lookup(Table(language), key).value
      ensures Lookup(Table(language), key).None? ==> r == key
    {
      SwitchingKeepsTranslations(key);
      Translate(language, key)
    }

    /** `setLanguage`. */
    method SetLanguage(language': Language)
      modifies this
      ensures language == language'
    {
      language := language';
    }
  }
}
