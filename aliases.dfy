/** The built-in alias table that maps client-facing model names to the
    upstream's model identifiers, and the lookup `MODEL_ALIASES.get(m, m)`. */
module Aliases {
  import opened Json

  /** `MODEL_ALIASES`: exact, case-sensitive names. */
  const Table: map<string, string> := map[
    "deepseek/deepseek-chat:free" := "deepseek/deepseek-chat",
    "deepseek-chat-v3-0324:free" := "deepseek/deepseek-chat",
    "deepseek-chat-v3-0324" := "deepseek/deepseek-chat",
    "deepseek-chat" := "deepseek/deepseek-chat",
    "deepseek/deepseek-chat-v3-0324:free" := "deepseek/deepseek-chat",
    "deepseek/deepseek-chat-v3-0324" := "deepseek/deepseek-chat",
    "deepseek-coder" := "deepseek/deepseek-coder",
    "deepseek/deepseek-coder:free" := "deepseek/deepseek-coder",
    "deepseek-r1" := "deepseek/deepseek-r1",
    "deepseek/deepseek-r1:free" := "deepseek/deepseek-r1",
    "gpt-3.5-turbo" := "deepseek/deepseek-chat",
    "gpt-4o-mini" := "deepseek/deepseek-chat"
  ]

  /** A model value the table does not rewrite. */
  predicate Canonical(m: Json)
  {
    !(m.JStr? && m.s in Table)
  }

  /** No alias maps onto another alias. */
  lemma TargetsAreCanonical()
    ensures forall a :: a in Table ==> Canonical(JStr(Table[a]))
  {
  }

  /** `MODEL_ALIASES.get(m, m)`: an alias becomes its target; every other value
      (unknown names included) passes through unchanged. */
  function Resolve(m: Json): (r: Json)
    ensures Canonical(r)
    ensures Canonical(m) ==> r == m
    ensures !Canonical(m) ==> r == JStr(Table[m.s]) && r != m
  {
    TargetsAreCanonical();
    if m.JStr? && m.s in Table then JStr(Table[m.s]) else m
  }

  /** Resolving a resolved name changes nothing. */
  lemma ResolveIdempotent(m: Json)
    ensures Resolve(Resolve(m)) == Resolve(m)
  {
  }

  /** Resolution keeps a truthy model truthy: every target is a non-empty name. */
  lemma ResolveKeepsTruthy(m: Json)
    requires Truthy(m)
    ensures Truthy(Resolve(m))
  {
  }
}
