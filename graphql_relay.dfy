/**
 * The part of the graphql-relay library the resolvers call: the global-id
 * codec and the array-to-connection paginator. Their implementations are not
 * part of this model; the codec is carried as a pair of functions, and its
 * round trip is a hypothesis (`RoundTrips`) of the lemmas that rely on it.
 */
module GraphQLRelay {
  import opened Wrappers

  /** What `fromGlobalId` returns: `{ type, id }`. */
  datatype ResolvedGlobalId = ResolvedGlobalId(typeName: string, id: string)

  /** `toGlobalId(type, id)` and `fromGlobalId(globalId)`. */
  datatype Relay = Relay(toGlobalId: (string, string) -> string,
                         fromGlobalId: string -> ResolvedGlobalId)

  /** The two node types of the schema. */
  const NodeTypes: set<string> := {"Blog", "Post"}

  /**
   * The codec's round trip, for the type names the server encodes:
   * decoding an encoded id gives back its type name and local id.
   */
  ghost predicate RoundTrips(relay: Relay) {
    forall typeName, id :: typeName in NodeTypes ==>
      relay.fromGlobalId(relay.toGlobalId(typeName, id)) == ResolvedGlobalId(typeName, id)
  }

  /** Under the round trip, encoding is injective on each node type. */
  lemma ToGlobalIdInjective(relay: Relay, typeName: string, id1: string, id2: string)
    requires RoundTrips(relay) && typeName in NodeTypes
    requires relay.toGlobalId(typeName, id1) == relay.toGlobalId(typeName, id2)
    ensures id1 == id2
  {
    assert relay.fromGlobalId(relay.toGlobalId(typeName, id1)) == ResolvedGlobalId(typeName, id1);
    assert relay.fromGlobalId(relay.toGlobalId(typeName, id2)) == ResolvedGlobalId(typeName, id2);
  }

  /** The pagination arguments of a connection field: `first: Int!, after: String`. */
  datatype ConnectionArgs = ConnectionArgs(first: int, after: Option<string>)

  /**
   * A call `connectionFromArray(data, args)`: the array and arguments a
   * resolver hands to the paginator, which builds the connection from them.
   */
  datatype ConnectionRequest<T> = ConnectionFromArray(data: seq<T>, args: ConnectionArgs)
}
