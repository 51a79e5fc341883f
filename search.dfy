/** The mock search of api/search/views.py: the query, lower-cased, selects
    one of three fixed result lists by substring, the startup keyword
    before the early-childhood one. */
module Search {

  import opened Common
  import opened Text

  datatype SearchResult = SearchResult(title: string, description: string, link: string, source: string)

  const StartupKey: string := "創業"
  const ChildhoodKey: string := "幼兒"

  const StartupResults: seq<SearchResult> := [
    SearchResult("創業小聚／從失敗中學習：新創公司的七個致命錯誤",
                 "本文深入分析新創公司常見的七個失敗原因，並提供實際案例與建議，幫助創業者避開陷阱。",
                 "https://www.bnext.com.tw/article/12345", "創業小聚"),
    SearchResult("政府補助指南：2025年最新中小企業創業貸款懶人包",
                 "經濟部中小企業處整理的最新創業貸款方案，包含申請資格、文件準備與審核流程，助您輕鬆取得啟動資金。",
                 "https://www.sme.gov.tw/guides/67890", "經濟部中小企業處")]

  const ChildhoodResults: seq<SearchResult> := [
    SearchResult("親子天下／學齡前幼兒的感官探索：5個在家就能做的簡單遊戲",
                 "專家分享如何透過簡單的日常生活用品，刺激幼兒的五感發展，促進大腦連結與學習能力。",
                 "https://www.parenting.com.tw/article/54321", "親子天下")]

  const DefaultResults: seq<SearchResult> := [
    SearchResult("Harvard Business Review：創新思維與商業模式的關係",
                 "深度解析頂尖企業如何運用創新思維，重塑商業模式，創造持久競爭力。適合所有想突破瓶頸的創業者。",
                 "https://hbr.org/2025/01/innovation-and-business-models", "Harvard Business Review"),
    SearchResult("Coursera精選課程：Python數據分析入門",
                 "從零開始學習Python數據分析的基礎知識與實用技能，為你的創業計畫提供數據支持。",
                 "https://www.coursera.org/learn/python-data-analysis", "Coursera")]

  /** `SearchView.post`: the result list for the request's `query`
      (the empty text when it is missing). */
  function SearchPost(data: map<string, string>): (results: seq<SearchResult>)
    ensures results == StartupResults || results == ChildhoodResults || results == DefaultResults
  {
    var query := ToLower(if "query" in data then data["query"] else "");
    if Contains(query, StartupKey) then StartupResults
    else if Contains(query, ChildhoodKey) then ChildhoodResults
    else DefaultResults
  }

  /** Neither keyword has an ASCII letter, so lower-casing never decides a
      match: the startup keyword anywhere in the query selects the two
      startup results, whether or not the childhood keyword occurs too; the
      childhood keyword alone selects its one result; any other query,
      a missing one included, the two default results. */
  lemma SearchPostSelection(data: map<string, string>)
    ensures var q := if "query" in data then data["query"] else "";
      (Contains(q, StartupKey) ==> SearchPost(data) == StartupResults)
      && (!Contains(q, StartupKey) && Contains(q, ChildhoodKey) ==> SearchPost(data) == ChildhoodResults)
      && (!Contains(q, StartupKey) && !Contains(q, ChildhoodKey) ==> SearchPost(data) == DefaultResults)
    ensures "query" !in data ==> SearchPost(data) == DefaultResults
    ensures |StartupResults| == 2 && |ChildhoodResults| == 1 && |DefaultResults| == 2
  {
    var q := if "query" in data then data["query"] else "";
    ContainsLowerNoLetters(q, StartupKey);
    ContainsLowerNoLetters(q, ChildhoodKey);
    if "query" !in data {
      ContainsLowerNoLetters("", StartupKey);
      ContainsLowerNoLetters("", ChildhoodKey);
    }
  }
}
