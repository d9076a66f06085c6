/**
 * The demonstration ticket classifier and the instructions loader of the
 * classification-agent script: a first-match rule over four keyword lists.
 */
module Classification {
  import opened Wrappers
  import opened Text
  import Instructions

  /** The five ticket categories. */
  datatype Category = Rede | Hardware | Seguranca | Software | Outros

  /** The label the script prints for each category. */
  function Label(c: Category): string
  {
    match c
    case Rede => "REDE"
    case Hardware => "HARDWARE"
    case Seguranca => "SEGURANÇA"
    case Software => "SOFTWARE"
    case Outros => "OUTROS"
  }

  /** Distinct categories print distinct labels, so the printed string names the category. */
  lemma LabelInjective(c: Category, d: Category)
    ensures Label(c) == Label(d) <==> c == d
  {
  }

  /** The position of a category in the order its keyword list is tried; OUTROS comes last. */
  function Rank(c: Category): nat
  {
    match c
    case Rede => 0
    case Hardware => 1
    case Seguranca => 2
    case Software => 3
    case Outros => 4
  }

  /** The keyword list tried for a category; OUTROS has none. */
  function Keywords(c: Category): seq<string>
  {
    match c
    case Rede => ["wifi", "internet", "conectar", "rede", "conexão"]
    case Hardware => ["computador", "liga", "tela", "mouse", "teclado", "hardware"]
    case Seguranca => ["senha", "acesso", "conta", "bloqueado", "login"]
    case Software => ["software", "word", "programa", "aplicativo", "instalar"]
    case Outros => []
  }

  /** Every keyword of every list, in the order the lists are tried. */
  function AllKeywords(): seq<string>
  {
    Keywords(Rede) + Keywords(Hardware) + Keywords(Seguranca) + Keywords(Software)
  }

  /** `any(word in text for word in words)`. */
  function AnyIn(words: seq<string>, text: string): (r: bool)
    ensures r <==> exists k :: 0 <= k < |words| && Contains(text, words[k])
  {
    if words == [] then false
    else
      assert forall k :: 1 <= k < |words| ==> words[k] == words[1..][k - 1];
      Contains(text, words[0]) || AnyIn(words[1..], text)
  }

  /** Some keyword of the list of `c` occurs in `text`. */
  predicate Hits(c: Category, text: string)
  {
    AnyIn(Keywords(c), text)
  }

  /** `classify_query`: lower-case the query once, then try the four lists in order. */
  function ClassifyQuery(query: string): Category
  {
    var q := Lower(query);
    if Hits(Rede, q) then Rede
    else if Hits(Hardware, q) then Hardware
    else if Hits(Seguranca, q) then Seguranca
    else if Hits(Software, q) then Software
    else Outros
  }

  /**
   * The category is the first one in priority order whose list has a
   * keyword in the lower-cased query: a category other than OUTROS is
   * chosen exactly when its list hits and no list tried before it does.
   */
  lemma ClassifyIsFirstHit(query: string, c: Category)
    requires c != Outros
    ensures ClassifyQuery(query) == c <==>
              Hits(c, Lower(query)) && forall d :: Rank(d) < Rank(c) ==> !Hits(d, Lower(query))
  {
    var q := Lower(query);
    if Rank(c) >= 1 { assert Rank(Rede) < Rank(c); }
    if Rank(c) >= 2 { assert Rank(Hardware) < Rank(c); }
    if Rank(c) >= 3 { assert Rank(Seguranca) < Rank(c); }
  }

  /** The result is OUTROS exactly when no keyword of any list occurs in the lower-cased query. */
  lemma OutrosIffNoKeyword(query: string)
    ensures ClassifyQuery(query) == Outros <==>
              forall k :: 0 <= k < |AllKeywords()| ==> !Occurs(AllKeywords()[k], Lower(query))
  {
    var q := Lower(query);
    var all := AllKeywords();
    var n0, n1, n2 := |Keywords(Rede)|, |Keywords(Hardware)|, |Keywords(Seguranca)|;
    forall k | 0 <= k < |all| { ContainsIffOccurs(q, all[k]); }
    if ClassifyQuery(query) == Outros {
      forall k | 0 <= k < |all| ensures !Contains(q, all[k]) {
        if k < n0 {
          assert all[k] == Keywords(Rede)[k];
        } else if k < n0 + n1 {
          assert all[k] == Keywords(Hardware)[k - n0];
        } else if k < n0 + n1 + n2 {
          assert all[k] == Keywords(Seguranca)[k - n0 - n1];
        } else {
          assert all[k] == Keywords(Software)[k - n0 - n1 - n2];
        }
      }
    } else {
      var c := ClassifyQuery(query);
      var j :| 0 <= j < |Keywords(c)| && Contains(q, Keywords(c)[j]);
      var k := match c
        case Rede => j
        case Hardware => n0 + j
        case Seguranca => n0 + n1 + j
        case _ => n0 + n1 + n2 + j;
      assert all[k] == Keywords(c)[j];
    }
  }

  /** The query is lower-cased before any keyword test, so letter case never matters. */
  lemma CaseInsensitive(query: string)
    ensures ClassifyQuery(Lower(query)) == ClassifyQuery(query)
  {
    LowerIdempotent(query);
  }

  /** Keywords match as substrings, so a hit survives any text added around the query. */
  lemma {:induction false} HitsExtend(c: Category, q: string, extra: string)
    requires Hits(c, q)
    ensures Hits(c, q + extra) && Hits(c, extra + q)
  {
    var j :| 0 <= j < |Keywords(c)| && Contains(q, Keywords(c)[j]);
    ContainsExtend(q, extra, Keywords(c)[j]);
  }

  /**
   * A query whose lower-cased form hits the list of `c` is never classified
   * in a category tried after `c`; a network hit makes it REDE whatever else
   * it contains.
   */
  lemma HitBoundsCategory(query: string, c: Category)
    requires Hits(c, Lower(query))
    ensures Rank(ClassifyQuery(query)) <= Rank(c)
    ensures c == Rede ==> ClassifyQuery(query) == Rede
  {
  }

  /**
   * Adding text to a query can only move it to a category tried earlier
   * (or keep it): a hit is never lost by adding words.
   */
  lemma {:induction false} MoreTextNeverLowersPriority(query: string, extra: string)
    ensures Rank(ClassifyQuery(query + extra)) <= Rank(ClassifyQuery(query))
    ensures Rank(ClassifyQuery(extra + query)) <= Rank(ClassifyQuery(query))
  {
    var c := ClassifyQuery(query);
    if c != Outros {
      ClassifyIsFirstHit(query, c);
      HitSurvivesMoreText(query, extra, c);
    }
  }

  lemma HitSurvivesMoreText(query: string, extra: string, c: Category)
    requires Hits(c, Lower(query))
    ensures Rank(ClassifyQuery(query + extra)) <= Rank(c)
    ensures Rank(ClassifyQuery(extra + query)) <= Rank(c)
  {
    HitsExtend(c, Lower(query), Lower(extra));
    LowerConcat(query, extra);
    HitBoundsCategory(query + extra, c);
    LowerConcat(extra, query);
    HitBoundsCategory(extra + query, c);
  }

  /** A single keyword of `c` in the lower-cased query is enough for the bound. */
  lemma KeywordBoundsCategory(query: string, c: Category, j: nat)
    requires j < |Keywords(c)| && Contains(Lower(query), Keywords(c)[j])
    ensures Rank(ClassifyQuery(query)) <= Rank(c)
    ensures c == Rede ==> ClassifyQuery(query) == Rede
  {
    HitBoundsCategory(query, c);
  }

  /** Every keyword is a single non-empty word. */
  lemma KeywordsAreWords(c: Category)
    ensures forall j :: 0 <= j < |Keywords(c)| ==> Keywords(c)[j] != [] && ' ' !in Keywords(c)[j]
  {
  }

  /** No keyword of `kws` from index `j` on occurs in `word`, checked keyword by keyword. */
  predicate MissesFrom(kws: seq<string>, word: string, j: nat)
    decreases |kws| - j
  {
    j >= |kws| || (!Contains(word, kws[j]) && MissesFrom(kws, word, j + 1))
  }

  lemma {:induction false} MissesFromSpec(kws: seq<string>, word: string, j: nat)
    ensures MissesFrom(kws, word, j) <==> forall i :: j <= i < |kws| ==> !Contains(word, kws[i])
    decreases |kws| - j
  {
    if j < |kws| {
      MissesFromSpec(kws, word, j + 1);
    }
  }

  /** No keyword of `c` occurs in a sentence if none occurs in any of its words. */
  lemma NoHitInWords(c: Category, words: seq<string>)
    requires forall j, k :: 0 <= j < |Keywords(c)| && 0 <= k < |words| ==> !Contains(words[k], Keywords(c)[j])
    ensures !Hits(c, Unwords(words))
  {
    KeywordsAreWords(c);
    var kws := Keywords(c);
    forall j | 0 <= j < |kws| ensures !Contains(Unwords(words), kws[j]) {
      AbsentFromUnwords(words, kws[j]);
    }
  }

  /**
   * Keywords match as substrings, not whole words: a query mentioning
   * `'contatos'` hits the security keyword `'conta'`, so it is SEGURANÇA or
   * a category tried before it.
   */
  lemma SubstringNotWholeWord(query: string)
    requires Contains(Lower(query), "contatos")
    ensures Hits(Seguranca, Lower(query))
    ensures Rank(ClassifyQuery(query)) <= Rank(Seguranca)
  {
    ContainsIffOccurs("contatos", "conta");
    assert OccursAt("contatos", "conta", 0);
    ContainsTransitive(Lower(query), "contatos", "conta");
    KeywordBoundsCategory(query, Seguranca, 2);
  }

  /**
   * Why the VPN test query falls to OUTROS: its word `'acessar'` does not
   * contain the keyword `'acesso'`, and `'vpn'` is in no keyword list.
   */
  lemma AcessarIsNotAcesso()
    ensures !Contains("acessar", "acesso")
    ensures !Hits(Seguranca, "acessar")
    ensures forall k :: 0 <= k < |AllKeywords()| ==> AllKeywords()[k] != "vpn"
  {
    assert MissesFrom(Keywords(Seguranca), "acessar", 0);
    MissesFromSpec(Keywords(Seguranca), "acessar", 0);
  }

  /** A sentence none of whose words meets a keyword of `c` is not a hit for `c`. */
  lemma WordsMissCategory(c: Category, words: seq<string>)
    requires forall k :: 0 <= k < |words| ==> MissesFrom(Keywords(c), words[k], 0)
    ensures !Hits(c, Unwords(words))
  {
    forall k | 0 <= k < |words| { MissesFromSpec(Keywords(c), words[k], 0); }
    NoHitInWords(c, words);
  }

  /** The fallback instructions of the classification script. */
  const DefaultTestInstructions: string := "Você é um assistente de IA útil. Finalize cada resposta com [FIM]."

  /**
   * `read_instructions_from_file`: the stripped file content, or the
   * one-line default when the file cannot be read or is blank. It never
   * raises, so the fallback branch around its call in `main` cannot run.
   */
  function ReadInstructionsFromFile(file: Option<string>): (r: string)
    ensures r != []
    ensures file.None? || AllSpace(file.value) ==> r == DefaultTestInstructions && EndsWith(r, "[FIM].")
    ensures file.Some? && !AllSpace(file.value) ==> r == Strip(file.value)
  {
    Instructions.ContentOrDefault(file, DefaultTestInstructions)
  }
}
