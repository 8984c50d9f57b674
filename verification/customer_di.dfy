/**
 * The dependency-injection exercise: `CustomerService` receives a customer repository
 * through its constructor and forwards lookups to it. The one repository there is,
 * `CustomerRepositoryImpl`, is a dictionary seeded once with three customers and only
 * read afterwards, so both are values here; each call also returns the lines it prints.
 */
module CustomerInjection {
  import opened Text

  datatype Customer = Customer(id: string, name: string, email: string)

  /** `CustomerRepositoryImpl`: its dictionary from id to customer. */
  datatype Repository = Repository(customers: map<string, Customer>)

  /** The service and the repository injected into it. */
  datatype CustomerService = CustomerService(repository: Repository)

  const RepositoryReady := "CustomerRepositoryImpl: Initialized with sample data."
  const ServiceReady := "CustomerService: Initialized with injected Customer Repository."

  /** The constructor's seed data, and the line it prints. */
  function NewRepository(): (r: (Repository, seq<string>))
    ensures r.0.customers.Keys == {"C101", "C102", "C103"}
    ensures forall k :: k in r.0.customers ==> r.0.customers[k].id == k
    ensures r.1 == [RepositoryReady]
  {
    (Repository(map[
      "C101" := Customer("C101", "Alice Johnson", "alice@example.com"),
      "C102" := Customer("C102", "Bob Williams", "bob@example.com"),
      "C103" := Customer("C103", "Charlie Brown", "charlie@example.com")]),
     [RepositoryReady])
  }

  /** Constructor injection: the service keeps exactly the repository it is given. */
  function NewService(repository: Repository): (r: (CustomerService, seq<string>))
    ensures r.0.repository == repository && r.1 == [ServiceReady]
  {
    (CustomerService(repository), [ServiceReady])
  }

  function SearchLine(id: string): string {
    "CustomerRepositoryImpl: Searching for customer with ID '" + id + "'."
  }

  function RequestLine(id: string): string {
    "CustomerService: Requesting customer details for ID '" + id + "'."
  }

  /** `TryGetValue`: the stored customer when the key is present, null (`None`) otherwise. */
  function FindCustomerById(repository: Repository, id: string): (r: (Option<Customer>, seq<string>))
    ensures r.0.Some? <==> id in repository.customers
    ensures r.0.Some? ==> r.0.value == repository.customers[id]
    ensures r.1 == [SearchLine(id)]
  {
    (if id in repository.customers then Some(repository.customers[id]) else None, [SearchLine(id)])
  }

  /** Announces the request, then returns exactly what the injected repository returns. */
  function GetCustomerDetails(service: CustomerService, id: string): (r: (Option<Customer>, seq<string>))
    ensures r.0 == FindCustomerById(service.repository, id).0
    ensures r.1 == [RequestLine(id)] + FindCustomerById(service.repository, id).1
  {
    var (found, lines) := FindCustomerById(service.repository, id);
    (found, [RequestLine(id)] + lines)
  }

  /** Through the seeded repository, a lookup finds a customer exactly for the three seeded ids, and finds the one with that id. */
  lemma SeededLookup(id: string)
    ensures var r := GetCustomerDetails(NewService(NewRepository().0).0, id).0;
      (r.Some? <==> id in {"C101", "C102", "C103"}) && (r.Some? ==> r.value.id == id)
  {
    var repository := NewRepository().0;
    assert id in repository.customers <==> id in repository.customers.Keys;
  }

  /** A failed lookup, C104 say, is null rather than an error. */
  lemma UnknownIdIsNull()
    ensures GetCustomerDetails(NewService(NewRepository().0).0, "C104").0 == None
    ensures GetCustomerDetails(NewService(NewRepository().0).0, "C101").0 ==
            Some(Customer("C101", "Alice Johnson", "alice@example.com"))
  {
    SeededLookup("C104");
    assert "C104" != "C101" && "C104" != "C102" && "C104" != "C103";
  }
}
