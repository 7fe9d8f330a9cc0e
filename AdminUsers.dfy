/** The user administration screen: a token-gated fetch and client-side
    search over the fetched users. */
module AdminUsers {
  import opened Js
  import opened Outcomes
  import opened Search

  class Component {
    const token: Value
    var users: seq<Record>
    var searchQuery: string
    var filteredUsers: seq<Record>
    /** How many times the list was requested. */
    var fetches: nat

    constructor (token: Value)
      ensures this.token == token && users == [] && searchQuery == "" && filteredUsers == []
      ensures fetches == 0
    {
      this.token := token;
      users, searchQuery, filteredUsers := [], "", [];
      fetches := 0;
    }

    /** `fetchUsersData`: both lists become the response; a failure changes
      nothing. */
    method FetchUsersData(response: Response<seq<Record>>)
      modifies this
      ensures fetches == old(fetches) + 1
      ensures response.Ok? ==> users == response.data && filteredUsers == response.data
      ensures response.Failed? ==> users == old(users) && filteredUsers == old(filteredUsers)
      ensures searchQuery == old(searchQuery)
    {
      fetches := fetches + 1;
      if response.Ok? {
        users := response.data;
        filteredUsers := response.data;
      }
    }

    /** The effect on `[token]`: users are fetched only with a token. */
    method Mount(response: Response<seq<Record>>)
      modifies this
      ensures !Truthy(token) ==> fetches == old(fetches) && users == old(users) && filteredUsers == old(filteredUsers)
      ensures Truthy(token) ==> fetches == old(fetches) + 1
      ensures Truthy(token) && response.Ok? ==> users == response.data && filteredUsers == response.data
      ensures Truthy(token) && response.Failed? ==> users == old(users) && filteredUsers == old(filteredUsers)
      ensures searchQuery == old(searchQuery)
    {
      if Truthy(token) {
        FetchUsersData(response);
      }
    }

    /** `handleSearch`: the shown list is the matching users in their order;
      the full list is untouched, and an empty query shows it all. */
    method HandleSearch(query: string)
      modifies this
      ensures searchQuery == query
      ensures filteredUsers == Filter(users, query)
      ensures forall u :: u in filteredUsers <==> u in users && Matches(u, query)
      ensures IsSubsequence(filteredUsers, users)
      ensures query == "" ==> filteredUsers == users
      ensures users == old(users) && fetches == old(fetches)
    {
      searchQuery := query;
      filteredUsers := Filter(users, query);
      if query == "" {
        FilterEmptyQuery(users);
      }
    }
  }
}
