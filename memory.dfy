/** The feature-request store and chat log the agent keeps in app/memory.py, held in memory
    instead of a database: feature rows keep their insertion order and receive increasing ids,
    and a description is stored at most once. */
module Memory {
  import opened Text

  /** One row of the feature table: `get_features` hands these out as `(id, description)` tuples. */
  datatype Feature = Feature(id: nat, description: string)

  /** One row of the message table. */
  datatype Message = Message(role: string, content: string)

  /** `str(f)` for the tuple `(id, description)`. The description is shown between single
      quotes as is; Python's escaping of quotes and backslashes inside it is not modelled. */
  function FeatureText(f: Feature): string {
    "(" + NatToString(f.id) + ", '" + f.description + "')"
  }

  /** The feature requests as the prompts list them: one "- (id, 'description')" line each. */
  function FeatureBullets(features: seq<Feature>): string {
    Join(seq(|features|, i requires 0 <= i < |features| => "- " + FeatureText(features[i])), "\n")
  }

  /** Every feature request has its line in the list. */
  lemma BulletsListFeature(features: seq<Feature>, i: nat)
    requires i < |features|
    ensures Contains(FeatureBullets(features), "- " + FeatureText(features[i]))
  {
    var parts := seq(|features|, i requires 0 <= i < |features| => "- " + FeatureText(features[i]));
    assert parts[i] == "- " + FeatureText(features[i]);
    JoinContainsPart(parts, "\n", i);
  }

  /** Some stored feature has this description. */
  predicate HasDescription(features: seq<Feature>, description: string) {
    exists f <- features :: f.description == description
  }

  class Store {
    var messages: seq<Message>
    var features: seq<Feature>
    /** The id the next inserted feature row receives. */
    var nextId: nat

    /** Ids increase along the table and stay below `nextId`; descriptions are unique (the
        column is declared unique, so a second insert of the same text fails). */
    ghost predicate Valid()
      reads this
    {
      (forall i :: 0 <= i < |features| ==> features[i].id < nextId)
      && (forall i, j :: 0 <= i < j < |features| ==> features[i].id < features[j].id)
      && (forall i, j :: 0 <= i < j < |features| ==> features[i].description != features[j].description)
    }

    constructor ()
      ensures Valid() && messages == [] && features == []
    {
      messages := [];
      features := [];
      nextId := 1;
    }

    method SaveMessage(role: string, content: string)
      modifies this
      ensures messages == old(messages) + [Message(role, content)]
      ensures features == old(features) && nextId == old(nextId)
    {
      messages := messages + [Message(role, content)];
    }

    /** Adds a feature request unless the same description is already stored. */
    method SaveFeature(description: string)
      requires Valid()
      modifies this
      ensures Valid()
      ensures features == if HasDescription(old(features), description) then old(features)
        else old(features) + [Feature(old(nextId), description)]
      ensures messages == old(messages)
    {
      if !HasDescription(features, description) {
        features := features + [Feature(nextId, description)];
        nextId := nextId + 1;
      }
    }
  }
}
