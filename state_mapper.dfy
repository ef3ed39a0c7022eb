/**
 * The canonical region-name table of state_mapper.py: a static, case-sensitive,
 * many-to-one dictionary from the state names found in the indicator data to the
 * names used as join keys by the map layer.
 */
module StateMapper {
  import opened Wrappers

  /** The `state_map` dictionary literal, entry by entry and in source order. */
  const StateMap: map<string, string> := map[
    "Andhra Pradesh" := "Andhra Pradesh",
    "Arunachal Pradesh" := "Arunachal Pradesh",
    "Assam" := "Assam",
    "Bihar" := "Bihar",
    "Chhattisgarh" := "Chhattisgarh",
    "Goa" := "Goa",
    "Gujarat" := "Gujarat",
    "Haryana" := "Haryana",
    "Himachal Pradesh" := "Himachal Pradesh",
    "Jammu and Kashmir" := "Jammu and Kashmir",
    "Jharkhand" := "Jharkhand",
    "Karnataka" := "Karnataka",
    "Kerala" := "Kerala",
    "Madhya Pradesh" := "Madhya Pradesh",
    "Maharashtra" := "Maharashtra",
    "Manipur" := "Manipur",
    "Meghalaya" := "Meghalaya",
    "Mizoram" := "Mizoram",
    "Nagaland" := "Nagaland",
    "Odisha" := "Odisha",
    "Orissa" := "Odisha",
    "Punjab" := "Punjab",
    "Rajasthan" := "Rajasthan",
    "Sikkim" := "Sikkim",
    "Tamil Nadu" := "Tamil Nadu",
    "Telangana" := "Telangana",
    "Tripura" := "Tripura",
    "Uttar Pradesh" := "Uttar Pradesh",
    "Uttaranchal" := "Uttarakhand",
    "Uttarakhand" := "Uttarakhand",
    "West Bengal" := "West Bengal",
    "Andaman and Nicobar" := "Andaman and Nicobar Islands",
    "Chandigarh" := "Chandigarh",
    "Dadra and Nagar Haveli" := "Dadra and Nagar Haveli and Daman and Diu",
    "Daman and Diu" := "Dadra and Nagar Haveli and Daman and Diu",
    "Delhi" := "Delhi",
    "Lakshadweep" := "Lakshadweep",
    "Puducherry" := "Puducherry",
    "Ladakh" := "Ladakh"
  ]

  /** The five keys whose value differs from the key (legacy names and merged territories). */
  const RenamedKeys: set<string> :=
    {"Orissa", "Uttaranchal", "Andaman and Nicobar", "Dadra and Nagar Haveli", "Daman and Diu"}

  /**
   * `Series.map(state_map)` on one cell: the canonical name for a key, NaN (None) otherwise.
   * Lookup never fails with an error.
   */
  function Canon(raw: string): (r: Option<string>)
    ensures r.Some? <==> raw in StateMap
    ensures r.Some? ==> r.value in StateMap.Values
  {
    if raw in StateMap then Some(StateMap[raw]) else None
  }

  /** "Orissa" and "Odisha" both normalise to "Odisha". */
  lemma OrissaAndOdishaMerge()
    ensures Canon("Orissa") == Canon("Odisha") == Some("Odisha")
  {
  }

  /** "Uttaranchal" and "Uttarakhand" both normalise to "Uttarakhand". */
  lemma UttaranchalAndUttarakhandMerge()
    ensures Canon("Uttaranchal") == Canon("Uttarakhand") == Some("Uttarakhand")
  {
  }

  /** The two former union territories normalise to the name of the merged territory. */
  lemma DadraAndDamanMerge()
    ensures Canon("Dadra and Nagar Haveli") == Canon("Daman and Diu")
         == Some("Dadra and Nagar Haveli and Daman and Diu")
  {
  }

  /** "Andaman and Nicobar" is renamed to a string that is not itself a key. */
  lemma AndamanRenamedOutsideKeys()
    ensures Canon("Andaman and Nicobar") == Some("Andaman and Nicobar Islands")
    ensures Canon("Andaman and Nicobar Islands") == None
  {
  }

  /** Every entry other than the five renamed keys is an identity entry. */
  lemma IdentityOutsideRenamed(k: string)
    requires k in StateMap && k !in RenamedKeys
    ensures StateMap[k] == k
  {
  }

  /**
   * The table renames exactly the five renamed keys, all of which are keys: every other
   * entry maps a name to itself.
   */
  lemma StateMapRenamesExactly(k: string)
    requires k in StateMap
    ensures StateMap[k] != k <==> k in RenamedKeys
    ensures RenamedKeys <= StateMap.Keys
  {
    if k !in RenamedKeys {
      IdentityOutsideRenamed(k);
    }
  }

  /**
   * Idempotence holds exactly where the output is itself a key:
   * for every key, Canon(Canon(k)) == Canon(k) unless the value is one of the
   * two names that the table produces but does not accept.
   */
  lemma IdempotentExceptMergedTerritories(k: string)
    requires k in StateMap
    ensures StateMap[k] in StateMap ==> Canon(StateMap[k]) == Canon(k)
    ensures StateMap[k] !in StateMap <==>
      StateMap[k] in {"Andaman and Nicobar Islands", "Dadra and Nagar Haveli and Daman and Diu"}
  {
    if k !in RenamedKeys {
      IdentityOutsideRenamed(k);
    }
  }

  /** Normalising twice loses the renamed union territories: the second lookup yields NaN. */
  lemma NotIdempotentForMergedTerritories()
    ensures Canon("Andaman and Nicobar").Some? && Canon(Canon("Andaman and Nicobar").value) == None
    ensures Canon("Daman and Diu").Some? && Canon(Canon("Daman and Diu").value) == None
    ensures Canon("Dadra and Nagar Haveli").Some? && Canon(Canon("Dadra and Nagar Haveli").value) == None
  {
  }

  /** Lookup is exact and case-sensitive: no case folding. */
  lemma LookupIsCaseSensitive()
    ensures Canon("Odisha").Some?
    ensures Canon("odisha") == None && Canon("ODISHA") == None
  {
  }

  /** Lookup does not trim: a state name with surrounding blanks is not a key. */
  lemma LookupDoesNotTrim()
    ensures Canon(" Odisha") == None && Canon("Odisha ") == None
  {
  }
}
