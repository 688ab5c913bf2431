/**
 * How `lambda_handler` picks an action: it joins the HTTP method and the API
 * resource template with a space and compares the result with five fixed
 * request lines.
 */
module Routing {

  /** The resource the handler is configured for. */
  const Resource: string := "employees"

  datatype Route = CreateOrUpdate | GetById | DeleteById | Search | ListAll | Unrecognized

  /** `event["httpMethod"] + " " + event["resource"]`. */
  function RequestLine(httpMethod: string, resource: string): string {
    httpMethod + " " + resource
  }

  /** The action for a request line, by exact string equality; anything else is unrecognized. */
  function RouteOf(request: string): Route {
    if request == "PUT /" + Resource then CreateOrUpdate
    else if request == "GET /" + Resource + "/{id}" then GetById
    else if request == "DELETE /" + Resource + "/{id}" then DeleteById
    else if request == "GET /" + Resource + "/search" then Search
    else if request == "GET /" + Resource then ListAll
    else Unrecognized
  }

  predicate NoSpace(s: string) {
    forall i :: 0 <= i < |s| ==> s[i] != ' '
  }

  /** A line with one space splits back into its method and resource in one way only. */
  lemma SplitAtSpace(m: string, r: string, a: string, b: string)
    requires NoSpace(a) && NoSpace(b)
    ensures m + " " + r == a + " " + b <==> m == a && r == b
  {
    var line, target := m + " " + r, a + " " + b;
    if line == target {
      assert line[|m|] == ' ';
      assert m == line[..|m|] == target[..|a|] == a;
      assert r == line[|m| + 1..] == target[|a| + 1..] == b;
    }
  }

  /**
   * Each action is reached by exactly one (method, resource) pair, and every
   * other pair is unrecognized.
   */
  lemma RouteIff(httpMethod: string, resource: string)
    ensures var route := RouteOf(RequestLine(httpMethod, resource));
      && (route == CreateOrUpdate <==> httpMethod == "PUT" && resource == "/employees")
      && (route == GetById <==> httpMethod == "GET" && resource == "/employees/{id}")
      && (route == DeleteById <==> httpMethod == "DELETE" && resource == "/employees/{id}")
      && (route == Search <==> httpMethod == "GET" && resource == "/employees/search")
      && (route == ListAll <==> httpMethod == "GET" && resource == "/employees")
  {
    assert "PUT /" + Resource == "PUT" + " " + "/employees";
    assert "GET /" + Resource + "/{id}" == "GET" + " " + "/employees/{id}";
    assert "DELETE /" + Resource + "/{id}" == "DELETE" + " " + "/employees/{id}";
    assert "GET /" + Resource + "/search" == "GET" + " " + "/employees/search";
    assert "GET /" + Resource == "GET" + " " + "/employees";
    assert NoSpace("PUT") && NoSpace("GET") && NoSpace("DELETE");
    assert NoSpace("/employees") && NoSpace("/employees/{id}") && NoSpace("/employees/search");
    SplitAtSpace(httpMethod, resource, "PUT", "/employees");
    SplitAtSpace(httpMethod, resource, "GET", "/employees/{id}");
    SplitAtSpace(httpMethod, resource, "DELETE", "/employees/{id}");
    SplitAtSpace(httpMethod, resource, "GET", "/employees/search");
    SplitAtSpace(httpMethod, resource, "GET", "/employees");
  }
}
