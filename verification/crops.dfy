/** The label-to-crop-name table both prediction handlers consult, and the
    `dict.get(label, "Unknown Crop")` lookup that makes it total. */
module Crops {

  /** The name a label outside the table resolves to. */
  const UnknownCrop: string := "Unknown Crop"

  /** The 22 classifier labels and the crops they stand for. */
  const CropTable: map<int, string> := map[
    1 := "Rice", 2 := "Maize", 3 := "Jute", 4 := "Cotton", 5 := "Coconut", 6 := "Papaya", 7 := "Orange",
    8 := "Apple", 9 := "Muskmelon", 10 := "Watermelon", 11 := "Grapes", 12 := "Mango", 13 := "Banana",
    14 := "Pomegranate", 15 := "Lentil", 16 := "Blackgram", 17 := "Mungbean", 18 := "Mothbeans",
    19 := "Pigeonpeas", 20 := "Kidneybeans", 21 := "Chickpea", 22 := "Coffee"
  ]

  /** A label the classifier is trained to produce. */
  predicate KnownLabel(n: int) {
    1 <= n <= 22
  }

  /** Every name the lookup can return: a table entry or the sentinel. */
  predicate CropName(name: string) {
    name in CropTable.Values || name == UnknownCrop
  }

  /** The lookup with default. Defined for every integer: a label in 1..22
      yields its table entry, every other label the sentinel. */
  function Resolve(n: int): (name: string)
    ensures CropName(name)
    ensures KnownLabel(n) <==> name != UnknownCrop
    ensures KnownLabel(n) ==> name == CropTable[n]
  {
    if n in CropTable then CropTable[n] else UnknownCrop
  }

  /** No crop name in the table is the sentinel, so a known label can never
      be mistaken for an unknown one. */
  lemma SentinelNotInTable()
    ensures UnknownCrop !in CropTable.Values
  {
  }

  /** Distinct known labels resolve to distinct names: the table is injective. */
  lemma ResolveInjective(i: int, j: int)
    requires KnownLabel(i) && KnownLabel(j)
    requires i != j
    ensures Resolve(i) != Resolve(j)
  {
  }

  /** Two labels that resolve to the same name are the same known label, or
      are both outside the table. */
  lemma ResolveDetermines(i: int, j: int)
    requires Resolve(i) == Resolve(j)
    ensures i == j || (!KnownLabel(i) && !KnownLabel(j))
  {
  }
}
