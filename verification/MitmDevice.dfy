/** A device as the connection manager knows it: libs/mitm/device.go. */
module MitmDevice {
  import opened ConnStats

  /** A control connection, as far as the device uses it: its identity and its own statistics. */
  class DeviceConn {
    const serial: int
    const connStats: ConnStats

    constructor (serial: int)
      ensures this.serial == serial && fresh(connStats) && connStats.Value() == ZERO_STATS
    {
      this.serial := serial;
      connStats := new ConnStats();
    }
  }

  class MitmDevice {
    const id: string
    var origin: string
    var previousWSConnStats: Stats
    var deviceConn: DeviceConn?
    var selectionEnabled: bool

    /** NewDevice */
    constructor (id: string, origin: string)
      ensures this.id == id && this.origin == origin && deviceConn == null && selectionEnabled
      ensures previousWSConnStats == ZERO_STATS
    {
      this.id, this.origin, deviceConn, selectionEnabled := id, origin, null, true;
      previousWSConnStats := ZERO_STATS;
    }

    /** Folds a connection's statistics into the device's. */
    method AccumulateStats(conn: DeviceConn?)
      modifies this`previousWSConnStats
      ensures previousWSConnStats ==
        if conn == null then old(previousWSConnStats) else Plus(old(previousWSConnStats), conn.connStats.Value())
    {
      if conn != null {
        var sum := new ConnStats.CopyOf(previousWSConnStats);
        sum.Add(conn.connStats.Value());
        previousWSConnStats := sum.Value();
      }
    }

    method SwapConn(conn: DeviceConn?) returns (was: DeviceConn?)
      modifies this`deviceConn
      ensures was == old(deviceConn) && deviceConn == conn
    {
      was := deviceConn;
      deviceConn := conn;
    }

    method CompareAndSwapConn(was: DeviceConn?, conn: DeviceConn?) returns (swapped: bool)
      modifies this`deviceConn
      ensures swapped == (old(deviceConn) == was)
      ensures deviceConn == if swapped then conn else old(deviceConn)
    {
      swapped := deviceConn == was;
      if swapped {
        deviceConn := conn;
      }
    }

    /** The current session's statistics, and the device's over all its sessions. */
    method WebsocketStats() returns (session: Stats, total: Stats)
      ensures session == if deviceConn == null then ZERO_STATS else deviceConn.connStats.Value()
      ensures total == if deviceConn == null then previousWSConnStats
                       else Plus(previousWSConnStats, deviceConn.connStats.Value())
    {
      session, total := ZERO_STATS, previousWSConnStats;
      if deviceConn != null {
        session := deviceConn.connStats.Value();
        var sum := new ConnStats.CopyOf(total);
        sum.Add(session);
        total := sum.Value();
      }
    }

    /** Answers whether the flag has changed. */
    method SetSelectionEnabled(enabled: bool) returns (changed: bool)
      modifies this`selectionEnabled
      ensures selectionEnabled == enabled && changed == (old(selectionEnabled) != enabled)
    {
      changed := selectionEnabled == !enabled;
      if changed {
        selectionEnabled := enabled;
      }
    }
  }
}
