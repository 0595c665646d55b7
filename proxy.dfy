/** An employee database behind a protection proxy that checks the client's role. */
module Proxy {
  import opened Wrappers

  /** An employee record. */
  datatype Employee = Employee(employeeId: int, employeeName: string)

  const ADMIN := "ADMIN"
  const USER := "USER"
  const NO_USER_FOUND := "No user found"
  const ACCESS_DENIED := "Access denied"

  /** The name stored under `employeeId`, or the error the real database throws. */
  function Find(db: map<int, Employee>, employeeId: int): (r: Result<string>)
    ensures r.Ok? <==> employeeId in db
    ensures r.Ok? ==> r.value == db[employeeId].employeeName
    ensures r.Err? ==> r.error == NO_USER_FOUND
  {
    if employeeId in db then Ok(db[employeeId].employeeName) else Err(NO_USER_FOUND)
  }

  /** The real database: a map from employee id to record, updated in place. It ignores
      the client argument. */
  class EmployeeDBImpl {
    var db: map<int, Employee>

    constructor ()
      ensures db == map[]
    {
      db := map[];
    }

    /** `create` files the record under its id, replacing any record with that id. */
    method Create(client: string, employee: Employee)
      modifies this
      ensures db == old(db)[employee.employeeId := employee]
    {
      db := db[employee.employeeId := employee];
    }

    /** `get` returns the stored name, or fails with "No user found" for an unknown id. */
    method Get(client: string, employeeId: int) returns (r: Result<string>)
      ensures r == Find(db, employeeId)
    {
      if employeeId !in db {
        return Err(NO_USER_FOUND);
      }
      r := Ok(db[employeeId].employeeName);
    }
  }

  /** After `create`, looking the id up yields the new name, and every other id looks up
      as before. */
  lemma FindAfterCreate(db: map<int, Employee>, employee: Employee, employeeId: int)
    ensures Find(db[employee.employeeId := employee], employee.employeeId) == Ok(employee.employeeName)
    ensures employeeId != employee.employeeId ==>
      Find(db[employee.employeeId := employee], employeeId) == Find(db, employeeId)
  {
  }

  /** Whether a client may create records: a plain user may not. */
  predicate MayCreate(client: string)
    ensures MayCreate(client) ==> client != USER
  {
    client == ADMIN
  }

  /** Whether a client may read records: every client that may create, and plain users
      besides. */
  predicate MayRead(client: string)
    ensures MayCreate(client) ==> MayRead(client)
    ensures MayRead(client) && !MayCreate(client) ==> client == USER
  {
    client == ADMIN || client == USER
  }

  /** The proxy: same interface, owning the real database and checking the client first. */
  class EmployeeDBProxy {
    const employeeDBImpl: EmployeeDBImpl

    constructor ()
      ensures fresh(employeeDBImpl) && employeeDBImpl.db == map[]
    {
      employeeDBImpl := new EmployeeDBImpl();
    }

    /** `create` forwards for "ADMIN" only; any other client gets "Access denied" and
        the database is left as it was. */
    method Create(client: string, employee: Employee) returns (r: Outcome)
      modifies employeeDBImpl
      ensures r == (if MayCreate(client) then Pass else Fail(ACCESS_DENIED))
      ensures MayCreate(client) ==> employeeDBImpl.db == old(employeeDBImpl.db)[employee.employeeId := employee]
      ensures !MayCreate(client) ==> employeeDBImpl.db == old(employeeDBImpl.db)
    {
      if client == ADMIN {
        employeeDBImpl.Create(client, employee);
        return Pass;
      }
      r := Fail(ACCESS_DENIED);
    }

    /** `get` forwards for "ADMIN" and "USER"; any other client gets "Access denied"
        before any lookup, even for an unknown id. */
    method Get(client: string, employeeId: int) returns (r: Result<string>)
      ensures MayRead(client) ==> r == Find(employeeDBImpl.db, employeeId)
      ensures !MayRead(client) ==> r == Err(ACCESS_DENIED)
    {
      if client == ADMIN || client == USER {
        r := employeeDBImpl.Get(client, employeeId);
        return;
      }
      r := Err(ACCESS_DENIED);
    }
  }

  /** The demonstration: ADMIN creates (1, "Samyak"), then USER reads id 1. */
  method Demo() returns (created: Outcome, read: Result<string>)
    ensures created == Pass && read == Ok("Samyak")
  {
    var employeeDBProxy := new EmployeeDBProxy();
    var employee1 := Employee(1, "Samyak");
    created := employeeDBProxy.Create(ADMIN, employee1);
    read := employeeDBProxy.Get(USER, 1);
  }

  /** A client that is neither ADMIN nor USER is refused both operations, and its
      attempt to create leaves the database unchanged. */
  method GuestDemo() returns (created: Outcome, read: Result<string>, stored: nat)
    ensures created == Fail(ACCESS_DENIED) && read == Err(ACCESS_DENIED) && stored == 0
  {
    var employeeDBProxy := new EmployeeDBProxy();
    created := employeeDBProxy.Create("GUEST", Employee(2, "Guest"));
    read := employeeDBProxy.Get("GUEST", 2);
    stored := |employeeDBProxy.employeeDBImpl.db|;
  }
}
